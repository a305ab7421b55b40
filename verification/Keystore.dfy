/** The encrypted keystore file: `skr_crypto/server/encrypted_keystore.py`, with an ideal cipher and
    an ideal key derivation. */
module Keystore {
  import opened Options

  newtype byte = x: int | 0 <= x < 256
  type Bytes = seq<byte>

  const CURRENT_VERSION: int := 1
  const KEY_BYTES: nat := 32

  datatype Error = NotFound | Corrupt | UnsupportedVersion | WrongPassphrase | NameConflict | General
  datatype Result<T> = Ok(value: T) | Err(error: Error)

  datatype Entry = Entry(name: string, address: string, rawKey: Bytes)

  // ----- the ideal cipher ---------------------------------------------------------------------

  /** scrypt: different inputs never give the same key. */
  datatype AesKey = Derived(passphrase: Bytes, salt: Bytes)

  /** AES-GCM: a ciphertext opens only under its own key, nonce and associated data. Forged is any
      other byte string. */
  datatype Ciphertext = Box(key: AesKey, iv: Bytes, aad: string, plain: Bytes) | Forged(bytes: Bytes)

  function Decrypt(key: AesKey, iv: Bytes, ct: Ciphertext, aad: string): Option<Bytes> {
    if ct.Box? && ct.key == key && ct.iv == iv && ct.aad == aad then Some(ct.plain) else None
  }

  // ----- the file -----------------------------------------------------------------------------

  /** A member of 'wallets'. None: absent, not a string, or not decodable. */
  datatype WalletDoc = NotAnObject | Wallet(name: Option<string>, address: Option<string>, iv: Option<Bytes>, ct: Option<Ciphertext>)

  /** Garbled: not UTF-8, not JSON, or not an object, like a half-written file. */
  datatype Content =
    | Garbled
    | Doc(version: Option<int>, knownCiphers: bool, salt: Option<Bytes>, wallets: Option<seq<WalletDoc>>)

  datatype File = File(ownerOnly: bool, content: Content)

  predicate ValidKey(b: Bytes) {
    |b| == KEY_BYTES && exists i :: 0 <= i < |b| && b[i] != 0
  }

  predicate Has(es: seq<Entry>, name: string) {
    exists i :: 0 <= i < |es| && es[i].name == name
  }

  predicate Distinct(es: seq<Entry>) {
    forall i, j :: 0 <= i < j < |es| ==> es[i].name != es[j].name
  }

  predicate ValidKeys(es: seq<Entry>) {
    forall i :: 0 <= i < |es| ==> ValidKey(es[i].rawKey)
  }

  // ----- loading ------------------------------------------------------------------------------

  /** One turn of the loop of `load_keystore`, after the entries in `out`. */
  function OpenWallet(w: WalletDoc, key: AesKey, out: seq<Entry>): Result<Entry> {
    if w.NotAnObject? || w.name.None? || w.name.value == "" || Has(out, w.name.value) || w.iv.None? || w.ct.None? then Err(Corrupt)
    else
      var plain := Decrypt(key, w.iv.value, w.ct.value, w.name.value);
      if plain.None? then Err(WrongPassphrase)
      else if !ValidKey(plain.value) then Err(General)
      else Ok(Entry(w.name.value, if w.address.Some? then w.address.value else "", plain.value))
  }

  /** The entries of the first n wallets, or the first error. */
  function Opened(ws: seq<WalletDoc>, key: AesKey, n: nat): (r: Result<seq<Entry>>)
    requires n <= |ws|
    ensures r.Ok? ==> |r.value| == n
  {
    if n == 0 then Ok([])
    else
      var before := Opened(ws, key, n - 1);
      if before.Err? then before
      else
        var e := OpenWallet(ws[n - 1], key, before.value);
        if e.Err? then Err(e.error) else Ok(before.value + [e.value])
  }

  function Loaded(file: Option<File>, passphrase: Bytes): Result<seq<Entry>> {
    if file.None? then Err(NotFound)
    else if !file.value.ownerOnly then Err(General)
    else if file.value.content.Garbled? then Err(Corrupt)
    else
      var d := file.value.content;
      if d.version != Some(CURRENT_VERSION) then Err(UnsupportedVersion)
      else if !d.knownCiphers || d.salt.None? || d.wallets.None? then Err(Corrupt)
      else Opened(d.wallets.value, Derived(passphrase, d.salt.value), |d.wallets.value|)
  }

  // ----- saving -------------------------------------------------------------------------------

  function IvAt(ivs: seq<Bytes>, i: nat): Bytes {
    if i < |ivs| then ivs[i] else []
  }

  function SealWallet(key: AesKey, e: Entry, iv: Bytes): WalletDoc {
    Wallet(Some(e.name), Some(e.address), Some(iv), Some(Box(key, iv, e.name, e.rawKey)))
  }

  /** The wallets of `save_keystore` for the first n entries, or the first error. */
  function Serialised(key: AesKey, es: seq<Entry>, ivs: seq<Bytes>, n: nat): (r: Result<seq<WalletDoc>>)
    requires n <= |es|
    ensures r.Ok? ==> |r.value| == n
  {
    if n == 0 then Ok([])
    else
      var before := Serialised(key, es, ivs, n - 1);
      if before.Err? then before
      else if Has(es[..n - 1], es[n - 1].name) then Err(NameConflict)
      else if !ValidKey(es[n - 1].rawKey) then Err(General)
      else Ok(before.value + [SealWallet(key, es[n - 1], IvAt(ivs, n - 1))])
  }

  function DocOf(salt: Bytes, ws: seq<WalletDoc>): Content {
    Doc(Some(CURRENT_VERSION), true, Some(salt), Some(ws))
  }

  // ----- list operations ----------------------------------------------------------------------

  function IndexOf(es: seq<Entry>, name: string): (i: nat)
    ensures i <= |es| && (i < |es| ==> es[i].name == name)
    ensures forall j :: 0 <= j < i ==> es[j].name != name
  {
    if es == [] then 0 else if es[0].name == name then 0 else 1 + IndexOf(es[1..], name)
  }

  function Without(es: seq<Entry>, name: string): seq<Entry> {
    if es == [] then []
    else Without(es[..|es| - 1], name) + if es[|es| - 1].name == name then [] else [es[|es| - 1]]
  }

  function Added(es: seq<Entry>, e: Entry): Result<seq<Entry>> {
    if Has(es, e.name) then Err(NameConflict) else Ok(es + [e])
  }

  function Removed(es: seq<Entry>, name: string): Result<seq<Entry>> {
    if Has(es, name) then Ok(Without(es, name)) else Err(General)
  }

  /** The new name must be free, even when it is the old one. */
  function Renamed(es: seq<Entry>, old': string, new': string): Result<seq<Entry>> {
    if Has(es, new') then Err(NameConflict)
    else if IndexOf(es, old') == |es| then Err(General)
    else
      var i := IndexOf(es, old');
      Ok(es[i := es[i].(name := new')])
  }

  // ----- the disk and the atomic write --------------------------------------------------------

  /** The keystore's path and its .tmp neighbour. */
  datatype Disk = Disk(main: Option<File>, tmp: Option<File>)

  datatype Outcome = Written | Refused | Crashed

  /** How many of the five effects of `_atomic_write` happen before the process dies: unlink a stale
      .tmp, create it, write and sync it, replace the path, chmod. */
  const REPLACED: nat := 4
  const ALL_EFFECTS: nat := 5

  function AfterWrite(d: Disk, doc: Content, overwrite: bool, fuse: nat): (Disk, Outcome) {
    if fuse == 0 then (d, Crashed)
    else if fuse == 1 then (Disk(d.main, None), Crashed)
    else if fuse == 2 then (Disk(d.main, Some(File(true, Garbled))), Crashed)
    else if fuse == 3 then (Disk(d.main, Some(File(true, doc))), Crashed)
    else if d.main.Some? && !overwrite then (Disk(d.main, None), Refused)
    else (Disk(Some(File(true, doc)), None), if fuse < ALL_EFFECTS then Crashed else Written)
  }

  /** What an editing call came to. */
  datatype Verdict = Done | Failed(error: Error) | Died

  function VerdictOf(o: Outcome): Verdict {
    match o
    case Written => Done
    case Refused => Failed(General)
    case Crashed => Died
  }

  /** `save_keystore` */
  function AfterSave(d: Disk, passphrase: Bytes, es: seq<Entry>, salt: Bytes, ivs: seq<Bytes>, fuse: nat): (Disk, Verdict) {
    var ws := Serialised(Derived(passphrase, salt), es, ivs, |es|);
    if ws.Err? then (d, Failed(ws.error))
    else
      var (d', o) := AfterWrite(d, DocOf(salt, ws.value), true, fuse);
      (d', VerdictOf(o))
  }

  /** `get_salt`: no mode check, no passphrase. A missing file counts as corrupt here. */
  function Salt(file: Option<File>): Result<Bytes> {
    if file.None? || file.value.content.Garbled? || file.value.content.salt.None? then Err(Corrupt)
    else Ok(file.value.content.salt.value)
  }

  datatype Edit =
    | Add(entry: Entry)
    | Remove(name: string)
    | Rename(oldName: string, newName: string)

  function Edited(es: seq<Entry>, edit: Edit): Result<seq<Entry>> {
    match edit
    case Add(e) => Added(es, e)
    case Remove(name) => Removed(es, name)
    case Rename(o, n) => Renamed(es, o, n)
  }

  /** `add_wallet`, `remove_wallet`, `rename_wallet`: salt, load, edit, save. */
  function AfterEdit(d: Disk, passphrase: Bytes, edit: Edit, ivs: seq<Bytes>, fuse: nat): (Disk, Verdict) {
    var salt := Salt(d.main);
    var es := Loaded(d.main, passphrase);
    if salt.Err? then (d, Failed(salt.error))
    else if es.Err? then (d, Failed(es.error))
    else
      var es' := Edited(es.value, edit);
      if es'.Err? then (d, Failed(es'.error)) else AfterSave(d, passphrase, es'.value, salt.value, ivs, fuse)
  }

  /** `init_keystore` */
  function AfterInit(d: Disk, passphrase: Bytes, overwrite: bool, salt: Bytes, fuse: nat): (Disk, Verdict) {
    if d.main.Some? && !overwrite then (d, Failed(General))
    else if passphrase == [] then (d, Failed(General))
    else
      var (d', o) := AfterWrite(d, DocOf(salt, []), overwrite, fuse);
      (d', VerdictOf(o))
  }

  class KeystoreFile {
    var main: Option<File>
    var tmp: Option<File>

    constructor ()
      ensures View() == Disk(None, None)
    {
      main, tmp := None, None;
    }

    function View(): Disk
      reads this
    {
      Disk(main, tmp)
    }

    method LoadKeystore(passphrase: Bytes) returns (r: Result<seq<Entry>>)
      ensures r == Loaded(main, passphrase)
    {
      if main.None? { return Err(NotFound); }
      if !main.value.ownerOnly { return Err(General); }
      var doc := main.value.content;
      if doc.Garbled? { return Err(Corrupt); }
      if doc.version != Some(CURRENT_VERSION) { return Err(UnsupportedVersion); }
      if !doc.knownCiphers { return Err(Corrupt); }
      if doc.salt.None? { return Err(Corrupt); }
      var key := Derived(passphrase, doc.salt.value);
      if doc.wallets.None? { return Err(Corrupt); }
      r := OpenAll(doc.wallets.value, key);
    }

    /** The wallet loop of `load_keystore`. */
    static method OpenAll(ws: seq<WalletDoc>, key: AesKey) returns (r: Result<seq<Entry>>)
      ensures r == Opened(ws, key, |ws|)
    {
      var out: seq<Entry> := [];
      var seenNames: set<string> := {};
      var i := 0;
      while i < |ws|
        invariant 0 <= i <= |ws| && Opened(ws, key, i) == Ok(out)
        invariant forall name :: name in seenNames <==> Has(out, name)
      {
        var w := ws[i];
        if w.NotAnObject? || w.name.None? || w.name.value == "" || w.name.value in seenNames || w.iv.None? || w.ct.None? {
          StaysErr(ws, key, i + 1, |ws|);
          return Err(Corrupt);
        }
        seenNames := seenNames + {w.name.value};
        var plain := Decrypt(key, w.iv.value, w.ct.value, w.name.value);
        if plain.None? {
          StaysErr(ws, key, i + 1, |ws|);
          return Err(WrongPassphrase);
        }
        if !ValidKey(plain.value) {
          StaysErr(ws, key, i + 1, |ws|);
          return Err(General);
        }
        var e := Entry(w.name.value, if w.address.Some? then w.address.value else "", plain.value);
        HasSnoc(out, e);
        out := out + [e];
        i := i + 1;
      }
      return Ok(out);
    }

    method AtomicWrite(doc: Content, overwrite: bool, fuse: nat) returns (o: Outcome)
      modifies this
      ensures (View(), o) == AfterWrite(old(View()), doc, overwrite, fuse)
    {
      if fuse == 0 { return Crashed; }
      tmp := None;
      if fuse == 1 { return Crashed; }
      tmp := Some(File(true, Garbled));
      if fuse == 2 { return Crashed; }
      tmp := Some(File(true, doc));
      if fuse == 3 { return Crashed; }
      if main.Some? && !overwrite {
        tmp := None;
        return Refused;
      }
      main, tmp := tmp, None;
      if fuse == REPLACED { return Crashed; }
      main := Some(main.value.(ownerOnly := true));
      return Written;
    }

    /** The entry loop of `save_keystore`. */
    static method SealAll(key: AesKey, es: seq<Entry>, ivs: seq<Bytes>) returns (r: Result<seq<WalletDoc>>)
      ensures r == Serialised(key, es, ivs, |es|)
    {
      var seen: set<string> := {};
      var ws: seq<WalletDoc> := [];
      var i := 0;
      while i < |es|
        invariant 0 <= i <= |es| && Serialised(key, es, ivs, i) == Ok(ws)
        invariant forall name :: name in seen <==> Has(es[..i], name)
      {
        var e := es[i];
        assert es[..i + 1] == es[..i] + [e];
        if e.name in seen {
          SealStaysErr(key, es, ivs, i + 1, |es|);
          return Err(NameConflict);
        }
        HasSnoc(es[..i], e);
        seen := seen + {e.name};
        if !ValidKey(e.rawKey) {
          SealStaysErr(key, es, ivs, i + 1, |es|);
          return Err(General);
        }
        ws := ws + [SealWallet(key, e, IvAt(ivs, i))];
        i := i + 1;
      }
      return Ok(ws);
    }

    method SaveKeystore(passphrase: Bytes, es: seq<Entry>, salt: Bytes, ivs: seq<Bytes>, fuse: nat) returns (v: Verdict)
      modifies this
      ensures (View(), v) == AfterSave(old(View()), passphrase, es, salt, ivs, fuse)
    {
      var ws := SealAll(Derived(passphrase, salt), es, ivs);
      if ws.Err? { return Failed(ws.error); }
      var o := AtomicWrite(DocOf(salt, ws.value), true, fuse);
      return VerdictOf(o);
    }

    method InitKeystore(passphrase: Bytes, overwrite: bool, salt: Bytes, fuse: nat) returns (v: Verdict)
      modifies this
      ensures (View(), v) == AfterInit(old(View()), passphrase, overwrite, salt, fuse)
    {
      if main.Some? && !overwrite { return Failed(General); }
      if passphrase == [] { return Failed(General); }
      var o := AtomicWrite(DocOf(salt, []), overwrite, fuse);
      return VerdictOf(o);
    }

    method AddWallet(passphrase: Bytes, entry: Entry, ivs: seq<Bytes>, fuse: nat) returns (v: Verdict)
      modifies this
      ensures (View(), v) == AfterEdit(old(View()), passphrase, Add(entry), ivs, fuse)
    {
      var salt := Salt(main);
      if salt.Err? { return Failed(salt.error); }
      var existing := LoadKeystore(passphrase);
      if existing.Err? { return Failed(existing.error); }
      var i := 0;
      while i < |existing.value|
        invariant 0 <= i <= |existing.value| && forall j :: 0 <= j < i ==> existing.value[j].name != entry.name
      {
        if existing.value[i].name == entry.name { return Failed(NameConflict); }
        i := i + 1;
      }
      v := SaveKeystore(passphrase, existing.value + [entry], salt.value, ivs, fuse);
    }

    /** The comprehension and the search of `remove_wallet`: what is kept, and the first one out. */
    static method TakeOut(es: seq<Entry>, name: string) returns (keep: seq<Entry>, removed: Option<Entry>)
      ensures keep == Without(es, name) && (removed.None? <==> !Has(es, name))
      ensures |keep| <= |es| && (|keep| == |es| <==> removed.None?)
      ensures removed.Some? ==> removed.value in es && removed.value.name == name
    {
      keep, removed := [], None;
      var i := 0;
      while i < |es|
        invariant 0 <= i <= |es| && keep == Without(es[..i], name)
        invariant removed.None? <==> !Has(es[..i], name)
        invariant |keep| <= i && (|keep| == i <==> removed.None?)
        invariant removed.Some? ==> removed.value in es && removed.value.name == name
      {
        var e := es[i];
        assert es[..i + 1] == es[..i] + [e] && es[..i + 1][..i] == es[..i];
        HasSnoc(es[..i], e);
        if e.name != name {
          keep := keep + [e];
        } else if removed.None? {
          removed := Some(e);
        }
        i := i + 1;
      }
      assert es[..|es|] == es;
    }

    method RemoveWallet(passphrase: Bytes, name: string, ivs: seq<Bytes>, fuse: nat) returns (v: Verdict, removed: Option<Entry>)
      modifies this
      ensures (View(), v) == AfterEdit(old(View()), passphrase, Remove(name), ivs, fuse)
      ensures v.Done? ==> removed.Some? && removed.value.name == name && removed.value in Loaded(old(main), passphrase).value
    {
      removed := None;
      var salt := Salt(main);
      if salt.Err? { return Failed(salt.error), None; }
      var existing := LoadKeystore(passphrase);
      if existing.Err? { return Failed(existing.error), None; }
      var keep;
      keep, removed := TakeOut(existing.value, name);
      if |keep| == |existing.value| { return Failed(General), None; }
      v := SaveKeystore(passphrase, keep, salt.value, ivs, fuse);
    }

    method RenameWallet(passphrase: Bytes, oldName: string, newName: string, ivs: seq<Bytes>, fuse: nat) returns (v: Verdict)
      modifies this
      ensures (View(), v) == AfterEdit(old(View()), passphrase, Rename(oldName, newName), ivs, fuse)
    {
      var salt := Salt(main);
      if salt.Err? { return Failed(salt.error); }
      var loaded := LoadKeystore(passphrase);
      if loaded.Err? { return Failed(loaded.error); }
      var existing := loaded.value;
      if exists i :: 0 <= i < |existing| && existing[i].name == newName { return Failed(NameConflict); }
      var i := 0;
      while i < |existing| && existing[i].name != oldName
        invariant 0 <= i <= |existing| && forall j :: 0 <= j < i ==> existing[j].name != oldName
      {
        i := i + 1;
      }
      assert i == IndexOf(existing, oldName);
      if i == |existing| { return Failed(General); }
      existing := existing[i := existing[i].(name := newName)];
      v := SaveKeystore(passphrase, existing, salt.value, ivs, fuse);
    }
  }

  lemma {:induction false} StaysErr(ws: seq<WalletDoc>, key: AesKey, m: nat, n: nat)
    requires m <= n <= |ws| && Opened(ws, key, m).Err?
    ensures Opened(ws, key, n) == Opened(ws, key, m)
  {
    if m < n { StaysErr(ws, key, m, n - 1); }
  }

  lemma {:induction false} SealStaysErr(key: AesKey, es: seq<Entry>, ivs: seq<Bytes>, m: nat, n: nat)
    requires m <= n <= |es| && Serialised(key, es, ivs, m).Err?
    ensures Serialised(key, es, ivs, n) == Serialised(key, es, ivs, m)
  {
    if m < n { SealStaysErr(key, es, ivs, m, n - 1); }
  }

  lemma HasSnoc(es: seq<Entry>, e: Entry)
    ensures forall name :: Has(es + [e], name) <==> Has(es, name) || name == e.name
  {
    forall name ensures Has(es + [e], name) <==> Has(es, name) || name == e.name {
      var all := es + [e];
      if Has(es, name) {
        var i :| 0 <= i < |es| && es[i].name == name;
        assert all[i].name == name;
      }
      if name == e.name { assert all[|es|].name == name; }
    }
  }
}
