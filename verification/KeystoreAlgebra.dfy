/** What the keystore file keeps, over calls, crashes and random bytes. */
module KeystoreAlgebra {
  // A saved keystore loads as the same entries in the same order, a moved ciphertext does not load, and add,
  // remove and rename are the list operations one expects. Every run of them, dying after any of its file
  // steps or not at all, loads as the list operations of the calls that got as far as replacing the file.

  import opened Keystore
  import opened Options

  // ----- save, then load ----------------------------------------------------------------------

  lemma SnocFacts(cut: seq<Entry>, e: Entry)
    ensures Distinct(cut + [e]) <==> Distinct(cut) && !Has(cut, e.name)
    ensures ValidKeys(cut + [e]) <==> ValidKeys(cut) && ValidKey(e.rawKey)
  {
    var all := cut + [e];
    assert all[|cut|] == e && forall i :: 0 <= i < |cut| ==> all[i] == cut[i];
  }

  /** Saving succeeds exactly on distinct names and valid keys, and then seals every entry. */
  lemma {:induction false} SaveMeaning(key: AesKey, es: seq<Entry>, ivs: seq<Bytes>, n: nat)
    requires n <= |es|
    ensures Serialised(key, es, ivs, n).Ok? <==> Distinct(es[..n]) && ValidKeys(es[..n])
    ensures Serialised(key, es, ivs, n).Ok? ==>
              forall i :: 0 <= i < n ==> Serialised(key, es, ivs, n).value[i] == SealWallet(key, es[i], IvAt(ivs, i))
  {
    if n > 0 {
      SaveMeaning(key, es, ivs, n - 1);
      assert es[..n] == es[..n - 1] + [es[n - 1]];
      SnocFacts(es[..n - 1], es[n - 1]);
    }
  }

  predicate SealedAs(ws: seq<WalletDoc>, key: AesKey, es: seq<Entry>, ivs: seq<Bytes>) {
    |ws| == |es| && forall i :: 0 <= i < |es| ==> ws[i] == SealWallet(key, es[i], IvAt(ivs, i))
  }

  predicate Nameless(es: seq<Entry>) {
    exists i :: 0 <= i < |es| && es[i].name == ""
  }

  lemma PrefixFacts(es: seq<Entry>, n: nat)
    requires 0 < n <= |es| && Distinct(es)
    ensures es[..n] == es[..n - 1] + [es[n - 1]] && !Has(es[..n - 1], es[n - 1].name)
    ensures Nameless(es[..n]) <==> Nameless(es[..n - 1]) || es[n - 1].name == ""
  {
    assert forall i :: 0 <= i < n - 1 ==> es[..n][i] == es[..n - 1][i] == es[i];
    assert es[..n][n - 1] == es[n - 1];
  }

  /** Under the right key, wallets open up to the first empty name. */
  lemma {:induction false} OpensSealed(ws: seq<WalletDoc>, key: AesKey, es: seq<Entry>, ivs: seq<Bytes>, n: nat)
    requires SealedAs(ws, key, es, ivs) && Distinct(es) && ValidKeys(es) && n <= |es|
    ensures Opened(ws, key, n) == if Nameless(es[..n]) then Err(Corrupt) else Ok(es[..n])
  {
    if n > 0 {
      OpensSealed(ws, key, es, ivs, n - 1);
      PrefixFacts(es, n);
      assert ws[n - 1] == SealWallet(key, es[n - 1], IvAt(ivs, n - 1));
    }
  }

  /** Under any other key the first wallet is refused already. */
  lemma {:induction false} RefusesSealed(ws: seq<WalletDoc>, key: AesKey, other: AesKey, es: seq<Entry>, ivs: seq<Bytes>, n: nat)
    requires SealedAs(ws, key, es, ivs) && key != other && 0 < n <= |es|
    ensures Opened(ws, other, n) == Err(if es[0].name == "" then Corrupt else WrongPassphrase)
  {
    if n > 1 {
      RefusesSealed(ws, key, other, es, ivs, n - 1);
    } else {
      assert Opened(ws, other, 0) == Ok([]);
      assert ws[0] == SealWallet(key, es[0], IvAt(ivs, 0));
    }
  }

  /** What a file that was saved with these entries reads as, under any passphrase. */
  function Reading(passphrase: Bytes, es: seq<Entry>, asked: Bytes): Result<seq<Entry>> {
    if es == [] then Ok([])
    else if asked != passphrase then Err(if es[0].name == "" then Corrupt else WrongPassphrase)
    else if Nameless(es) then Err(Corrupt)
    else Ok(es)
  }

  /** Round trip: a save that works reads back, under the passphrase it was made with, as the same
      entries in the same order, exactly when no name is empty; and another passphrase is accepted
      exactly when there is nothing to decrypt. */
  lemma LoadAfterSave(d: Disk, passphrase: Bytes, es: seq<Entry>, salt: Bytes, ivs: seq<Bytes>, asked: Bytes)
    ensures AfterSave(d, passphrase, es, salt, ivs, ALL_EFFECTS).1.Done? <==> Distinct(es) && ValidKeys(es)
    ensures Distinct(es) && ValidKeys(es) ==>
              Loaded(AfterSave(d, passphrase, es, salt, ivs, ALL_EFFECTS).0.main, asked) == Reading(passphrase, es, asked)
  {
    var key := Derived(passphrase, salt);
    SaveMeaning(key, es, ivs, |es|);
    assert es[..|es|] == es;
    if Distinct(es) && ValidKeys(es) {
      ReadsAs(DocOf(salt, Serialised(key, es, ivs, |es|).value), passphrase, salt, es, ivs, asked);
    }
  }

  lemma ReadsAs(doc: Content, passphrase: Bytes, salt: Bytes, es: seq<Entry>, ivs: seq<Bytes>, asked: Bytes)
    requires Distinct(es) && ValidKeys(es)
    requires doc.Doc? && doc.wallets.Some? && doc == DocOf(salt, doc.wallets.value)
    requires SealedAs(doc.wallets.value, Derived(passphrase, salt), es, ivs)
    ensures Loaded(Some(File(true, doc)), asked) == Reading(passphrase, es, asked)
  {
    var ws := doc.wallets.value;
    if es == [] {
      assert Opened(ws, Derived(asked, salt), 0) == Ok([]);
    } else if asked != passphrase {
      RefusesSealed(ws, Derived(passphrase, salt), Derived(asked, salt), es, ivs, |es|);
    } else {
      OpensSealed(ws, Derived(passphrase, salt), es, ivs, |es|);
      assert es[..|es|] == es;
    }
  }

  // ----- what a load refuses ------------------------------------------------------------------

  lemma {:induction false} OpenErrors(ws: seq<WalletDoc>, key: AesKey, n: nat)
    requires n <= |ws| && Opened(ws, key, n).Err?
    ensures Opened(ws, key, n).error in {Corrupt, WrongPassphrase, General}
  {
    if Opened(ws, key, n - 1).Err? { OpenErrors(ws, key, n - 1); }
  }

  /** A missing file, a file that others may read, a file of another version and a file that is not of
      the expected form are told apart, before anything is decrypted and whatever the passphrase. */
  lemma LoadRefuses(file: Option<File>, asked: Bytes)
    ensures Loaded(file, asked) == Err(NotFound) <==> file.None?
    ensures file.Some? && !file.value.ownerOnly ==> Loaded(file, asked) == Err(General)
    ensures Loaded(file, asked) == Err(UnsupportedVersion) <==>
              file.Some? && file.value.ownerOnly && file.value.content.Doc? && file.value.content.version != Some(1)
    ensures file.Some? && file.value.ownerOnly && file.value.content.Garbled? ==> Loaded(file, asked) == Err(Corrupt)
    ensures file.Some? && file.value.ownerOnly && file.value.content.Doc? && file.value.content.version == Some(1) ==>
              var doc := file.value.content;
              if doc.knownCiphers && doc.salt.Some? && doc.wallets.Some?
              then Loaded(file, asked) == Opened(doc.wallets.value, Derived(asked, doc.salt.value), |doc.wallets.value|)
              else Loaded(file, asked) == Err(Corrupt)
  {
    if file.Some? && file.value.ownerOnly && file.value.content.Doc? {
      var doc := file.value.content;
      if doc.version == Some(1) && doc.knownCiphers && doc.salt.Some? && doc.wallets.Some? {
        var r := Opened(doc.wallets.value, Derived(asked, doc.salt.value), |doc.wallets.value|);
        if r.Err? { OpenErrors(doc.wallets.value, Derived(asked, doc.salt.value), |doc.wallets.value|); }
      }
    }
  }

  /** A key is usable exactly when it has 32 bytes and is not the zero key. */
  lemma ValidKeyIff(b: Bytes)
    ensures ValidKey(b) <==> |b| == 32 && b != seq(32, _ => 0 as byte)
  {
    if |b| == 32 && !ValidKey(b) { assert b == seq(32, _ => 0 as byte); }
  }

  // ----- what a successful load proves --------------------------------------------------------

  /** Every entry that loads was sealed under this key and for this very name. */
  lemma {:induction false} LoadedWasSealed(ws: seq<WalletDoc>, key: AesKey, n: nat)
    requires n <= |ws| && Opened(ws, key, n).Ok?
    ensures var es := Opened(ws, key, n).value;
            && Distinct(es) && ValidKeys(es) && !Nameless(es)
            && forall i :: 0 <= i < n ==>
                 ws[i].Wallet? && ws[i].name == Some(es[i].name) && ws[i].iv.Some?
                 && ws[i].ct == Some(Box(key, ws[i].iv.value, es[i].name, es[i].rawKey))
  {
    if n > 0 {
      LoadedWasSealed(ws, key, n - 1);
      var es, cut := Opened(ws, key, n).value, Opened(ws, key, n - 1).value;
      assert es == cut + [es[n - 1]] && !Has(cut, es[n - 1].name);
    }
  }

  /** Ciphertexts moved between two differently named wallets of a file do not load. */
  lemma SwapRejected(ws: seq<WalletDoc>, key: AesKey, i: nat, j: nat)
    requires i < |ws| && j < |ws| && Opened(ws, key, |ws|).Ok? && i != j
    ensures ws[i].Wallet? && ws[j].Wallet?
    ensures Opened(ws[i := ws[i].(iv := ws[j].iv, ct := ws[j].ct)], key, |ws|).Err?
  {
    LoadedWasSealed(ws, key, |ws|);
    var es := Opened(ws, key, |ws|).value;
    assert es[i].name != es[j].name;
    var swapped := ws[i := ws[i].(iv := ws[j].iv, ct := ws[j].ct)];
    assert swapped[i].name == Some(es[i].name);
    assert swapped[i].ct == Some(Box(key, ws[j].iv.value, es[j].name, es[j].rawKey));
    if Opened(swapped, key, |ws|).Ok? {
      LoadedWasSealed(swapped, key, |ws|);
      assert false;
    }
  }

  // ----- the list operations ------------------------------------------------------------------

  /** Removing keeps exactly the entries of other names ... */
  lemma {:induction false} WithoutMembers(es: seq<Entry>, name: string, x: Entry)
    ensures x in Without(es, name) <==> x in es && x.name != name
  {
    if es != [] {
      var cut, e := es[..|es| - 1], es[|es| - 1];
      assert es == cut + [e];
      WithoutMembers(cut, name, x);
    }
  }

  /** ... in their order: names stay distinct. */
  lemma {:induction false} WithoutDistinct(es: seq<Entry>, name: string)
    requires Distinct(es)
    ensures Distinct(Without(es, name))
  {
    if es != [] {
      var cut, e := es[..|es| - 1], es[|es| - 1];
      WithoutDistinct(cut, name);
      var rest := Without(cut, name);
      forall i | 0 <= i < |rest| ensures rest[i].name != e.name {
        WithoutMembers(cut, name, rest[i]);
        var j :| 0 <= j < |cut| && cut[j] == rest[i];
        assert es[j].name != es[|es| - 1].name;
      }
    }
  }

  lemma WithoutValid(es: seq<Entry>, name: string)
    requires ValidKeys(es)
    ensures ValidKeys(Without(es, name))
  {
    var rest := Without(es, name);
    forall i | 0 <= i < |rest| ensures ValidKey(rest[i].rawKey) { WithoutMembers(es, name, rest[i]); }
  }

  lemma {:induction false} WithoutAbsent(es: seq<Entry>, name: string)
    requires !Has(es, name)
    ensures Without(es, name) == es
  {
    if es != [] {
      var cut := es[..|es| - 1];
      assert forall i :: 0 <= i < |cut| ==> cut[i] == es[i];
      WithoutAbsent(cut, name);
      assert es == cut + [es[|es| - 1]];
    }
  }

  /** When an edit applies, and what it leaves: an added entry comes last, a renamed one keeps its place,
      address and key, and every other entry stays as and where it was. */
  lemma EditMeaning(es: seq<Entry>, edit: Edit)
    requires Distinct(es)
    ensures var r := Edited(es, edit);
            match edit
            case Add(e) =>
              && (r.Ok? <==> forall i :: 0 <= i < |es| ==> es[i].name != e.name)
              && (r.Err? ==> r.error == NameConflict)
              && (r.Ok? ==> |r.value| == |es| + 1 && r.value[..|es|] == es && r.value[|es|] == e)
            case Remove(name) =>
              && (r.Ok? <==> exists i :: 0 <= i < |es| && es[i].name == name)
              && (r.Err? ==> r.error == General)
              && (r.Ok? ==> exists i :: 0 <= i < |es| && es[i].name == name && r.value == es[..i] + es[i + 1..])
            case Rename(o, n) =>
              && (r.Ok? <==> Has(es, o) && forall i :: 0 <= i < |es| ==> es[i].name != n)
              && (r.Err? ==> r.error == if Has(es, n) then NameConflict else General)
              && (r.Ok? ==>
                    && |r.value| == |es|
                    && forall i :: 0 <= i < |es| ==> r.value[i] == if es[i].name == o then es[i].(name := n) else es[i])
  {
    match edit
    case Remove(name) =>
      if Has(es, name) {
        var i :| 0 <= i < |es| && es[i].name == name;
        WithoutOne(es, name, i);
      }
    case _ =>
  }

  lemma WithoutLast(cut: seq<Entry>, e: Entry)
    requires !Has(cut, e.name)
    ensures Without(cut + [e], e.name) == cut
  {
    assert (cut + [e])[..|cut|] == cut;
    WithoutAbsent(cut, e.name);
    assert Without(cut + [e], e.name) == cut + [];
  }

  lemma WithoutSnoc(cut: seq<Entry>, e: Entry, name: string)
    requires e.name != name
    ensures Without(cut + [e], name) == Without(cut, name) + [e]
  {
    assert (cut + [e])[..|cut|] == cut;
  }

  lemma {:induction false} WithoutOne(es: seq<Entry>, name: string, i: nat)
    requires Distinct(es) && i < |es| && es[i].name == name
    ensures Without(es, name) == es[..i] + es[i + 1..]
  {
    var cut, e := es[..|es| - 1], es[|es| - 1];
    assert es == cut + [e];
    if i < |cut| {
      WithoutSnoc(cut, e, name);
      WithoutOne(cut, name, i);
      assert cut[..i] + cut[i + 1..] + [e] == es[..i] + es[i + 1..];
    } else {
      SnocFacts(cut, e);
      WithoutLast(cut, e);
    }
  }

  /** add, remove and rename keep names distinct and keys valid (an added key must be valid). */
  lemma EditsKeepDistinct(es: seq<Entry>, edit: Edit)
    requires Distinct(es) && ValidKeys(es) && Edited(es, edit).Ok?
    ensures Distinct(Edited(es, edit).value)
    ensures ValidKeys(Edited(es, edit).value) <==> (edit.Add? ==> ValidKey(edit.entry.rawKey))
  {
    var es' := Edited(es, edit).value;
    match edit
    case Add(e) =>
      assert es'[|es|] == e && forall i :: 0 <= i < |es| ==> es'[i] == es[i];
    case Remove(name) =>
      WithoutDistinct(es, name);
      WithoutValid(es, name);
    case Rename(o, n) =>
  }

  /** Removing what was just added restores the list. */
  lemma AddThenRemove(es: seq<Entry>, e: Entry)
    requires Added(es, e).Ok?
    ensures Removed(Added(es, e).value, e.name) == Ok(es)
  {
    assert (es + [e])[..|es|] == es;
    HasSnoc(es, e);
    WithoutAbsent(es, e.name);
    assert Without(es + [e], e.name) == Without(es, e.name) + [] == es;
  }

  /** Renaming back restores the list, order included. */
  lemma RenameBack(es: seq<Entry>, a: string, b: string)
    requires Distinct(es) && Renamed(es, a, b).Ok?
    ensures Renamed(Renamed(es, a, b).value, b, a) == Ok(es)
  {
    var i, es' := IndexOf(es, a), Renamed(es, a, b).value;
    assert es[i].name == a && es'[i].name == b;
    forall j | 0 <= j < |es| && j != i ensures es'[j].name != b && es'[j].name != a {
      assert es[j] == es'[j];
      assert if j < i then es[j].name != es[i].name else es[i].name != es[j].name;
    }
    assert !Has(es', a) by {
      assert es[i].name != b;
    }
    assert IndexOf(es', b) == i;
    assert es'[i := es'[i].(name := a)] == es;
  }

  // ----- the atomic write ---------------------------------------------------------------------

  /** Wherever a write dies, the path holds the old file or the new one, whole and readable by its owner
      only; a file that may not be replaced never is; and no other user can read what is left over. */
  lemma WriteIsAtomic(d: Disk, doc: Content, overwrite: bool, fuse: nat)
    ensures var (d', o) := AfterWrite(d, doc, overwrite, fuse);
            && d'.main == (if fuse >= 4 && (d.main.None? || overwrite) then Some(File(true, doc)) else d.main)
            && (o.Written? <==> fuse >= 5 && (d.main.None? || overwrite))
            && (o.Refused? <==> fuse >= 4 && d.main.Some? && !overwrite)
            && (!o.Crashed? ==> d'.tmp.None?)
            && (d'.tmp == d.tmp || d'.tmp.None? || (d'.tmp.value.ownerOnly && d'.tmp.value.content in {Garbled, doc}))
  {}

  // ----- runs ---------------------------------------------------------------------------------

  /** One call, with its own passphrase, its random bytes and the effect after which it dies. */
  datatype Call =
    | Init(passphrase: Bytes, overwrite: bool, salt: Bytes, fuse: nat)
    | Change(passphrase: Bytes, edit: Edit, ivs: seq<Bytes>, fuse: nat)

  function Exec(d: Disk, c: Call): Disk {
    match c
    case Init(passphrase, overwrite, salt, fuse) => AfterInit(d, passphrase, overwrite, salt, fuse).0
    case Change(passphrase, edit, ivs, fuse) => AfterEdit(d, passphrase, edit, ivs, fuse).0
  }

  function Run(calls: seq<Call>): Disk {
    if calls == [] then Disk(None, None) else Exec(Run(calls[..|calls| - 1]), calls[|calls| - 1])
  }

  /** The keystore as a user thinks of it: nothing, or a passphrase and a list. */
  datatype Ring = Absent | Ring(passphrase: Bytes, entries: seq<Entry>)

  function RingReading(r: Ring, asked: Bytes): Result<seq<Entry>> {
    if r.Absent? then Err(NotFound) else Reading(r.passphrase, r.entries, asked)
  }

  /** The ideal effect of a call: a list operation, if its rename is reached. */
  function Ideal(r: Ring, c: Call): Ring {
    if c.fuse < REPLACED then r
    else
      match c
      case Init(passphrase, overwrite, _, _) =>
        if (r.Ring? && !overwrite) || passphrase == [] then r else Ring(passphrase, [])
      case Change(passphrase, edit, _, _) =>
        if r.Absent? || RingReading(r, passphrase).Err? then r
        else
          var es := Edited(r.entries, edit);
          if es.Err? || (edit.Add? && !ValidKey(edit.entry.rawKey)) then r else Ring(passphrase, es.value)
  }

  function IdealRun(calls: seq<Call>): Ring {
    if calls == [] then Absent else Ideal(IdealRun(calls[..|calls| - 1]), calls[|calls| - 1])
  }

  /** The path holds exactly this ring, sealed. */
  ghost predicate Holds(main: Option<File>, r: Ring) {
    if r.Absent? then main.None?
    else
      && Distinct(r.entries) && ValidKeys(r.entries)
      && exists salt, ws, ivs :: main == Some(File(true, DocOf(salt, ws))) && SealedAs(ws, Derived(r.passphrase, salt), r.entries, ivs)
  }

  lemma HeldReads(main: Option<File>, r: Ring, asked: Bytes)
    requires Holds(main, r)
    ensures Loaded(main, asked) == RingReading(r, asked)
  {
    if r.Ring? {
      var salt, ws, ivs :| main == Some(File(true, DocOf(salt, ws))) && SealedAs(ws, Derived(r.passphrase, salt), r.entries, ivs);
      ReadsAs(DocOf(salt, ws), r.passphrase, salt, r.entries, ivs, asked);
    }
  }

  lemma SaveHolds(d: Disk, passphrase: Bytes, es: seq<Entry>, salt: Bytes, ivs: seq<Bytes>, fuse: nat)
    requires Distinct(es) && ValidKeys(es) && fuse >= REPLACED
    ensures Holds(AfterSave(d, passphrase, es, salt, ivs, fuse).0.main, Ring(passphrase, es))
  {
    var key := Derived(passphrase, salt);
    SaveMeaning(key, es, ivs, |es|);
    assert es[..|es|] == es;
    assert SealedAs(Serialised(key, es, ivs, |es|).value, key, es, ivs);
  }

  lemma InitSteps(d: Disk, r: Ring, c: Call)
    requires c.Init? && Holds(d.main, r)
    ensures Holds(Exec(d, c).main, Ideal(r, c))
  {
    var r' := Ideal(r, c);
    if c.fuse >= REPLACED && r' == Ring(c.passphrase, []) && !(d.main.Some? && !c.overwrite) && c.passphrase != [] {
      assert SealedAs([], Derived(c.passphrase, c.salt), [], []);
    }
  }

  /** An edit that loads and applies reaches its save. */
  lemma EditSaves(d: Disk, r: Ring, c: Call)
    requires c.Change? && r.Ring? && Holds(d.main, r)
    requires RingReading(r, c.passphrase).Ok? && Edited(r.entries, c.edit).Ok?
    ensures Salt(d.main).Ok?
    ensures AfterEdit(d, c.passphrase, c.edit, c.ivs, c.fuse)
            == AfterSave(d, c.passphrase, Edited(r.entries, c.edit).value, Salt(d.main).value, c.ivs, c.fuse)
  {
    HeldReads(d.main, r, c.passphrase);
  }

  lemma SaveRefuses(d: Disk, passphrase: Bytes, es: seq<Entry>, salt: Bytes, ivs: seq<Bytes>, fuse: nat)
    requires !ValidKeys(es) || fuse < REPLACED
    ensures AfterSave(d, passphrase, es, salt, ivs, fuse).0.main == d.main
  {
    SaveMeaning(Derived(passphrase, salt), es, ivs, |es|);
    assert es[..|es|] == es;
  }

  lemma EditSteps(d: Disk, r: Ring, c: Call)
    requires c.Change? && Holds(d.main, r)
    ensures Holds(Exec(d, c).main, Ideal(r, c))
  {
    if r.Ring? && RingReading(r, c.passphrase).Ok? && Edited(r.entries, c.edit).Ok? {
      EditSaves(d, r, c);
      EditsKeepDistinct(r.entries, c.edit);
      var es, salt := Edited(r.entries, c.edit).value, Salt(d.main).value;
      if !ValidKeys(es) || c.fuse < REPLACED {
        SaveRefuses(d, c.passphrase, es, salt, c.ivs, c.fuse);
      } else {
        SaveHolds(d, c.passphrase, es, salt, c.ivs, c.fuse);
      }
    } else {
      HeldReads(d.main, r, c.passphrase);
    }
  }

  lemma {:induction false} RunHolds(calls: seq<Call>)
    ensures Holds(Run(calls).main, IdealRun(calls))
  {
    if calls != [] {
      var cut, c := calls[..|calls| - 1], calls[|calls| - 1];
      RunHolds(cut);
      if c.Init? { InitSteps(Run(cut), IdealRun(cut), c); } else { EditSteps(Run(cut), IdealRun(cut), c); }
    }
  }

  /** Any run of calls and crashes loads, under any passphrase, as the list operations of the calls
      whose rename was reached. */
  lemma RunLoads(calls: seq<Call>, asked: Bytes)
    ensures Loaded(Run(calls).main, asked) == RingReading(IdealRun(calls), asked)
  {
    RunHolds(calls);
    HeldReads(Run(calls).main, IdealRun(calls), asked);
  }

  predicate IntroducesNameless(c: Call) {
    c.Change? && ((c.edit.Add? && c.edit.entry.name == "") || (c.edit.Rename? && c.edit.newName == ""))
  }

  /** A file becomes unreadable for good reason only: when nobody adds or renames to the empty name,
      every keystore that exists reads under its passphrase. */
  lemma {:induction false} NamedRunsLoad(calls: seq<Call>)
    requires forall i :: 0 <= i < |calls| ==> !IntroducesNameless(calls[i])
    ensures var r := IdealRun(calls); r.Ring? ==> !Nameless(r.entries) && RingReading(r, r.passphrase) == Ok(r.entries)
  {
    if calls != [] {
      var cut, c := calls[..|calls| - 1], calls[|calls| - 1];
      NamedRunsLoad(cut);
      var r := IdealRun(cut);
      if r.Ring? && c.Change? && Edited(r.entries, c.edit).Ok? {
        EditKeepsNamed(r.entries, c.edit);
      }
    }
  }

  lemma EditKeepsNamed(es: seq<Entry>, edit: Edit)
    requires !Nameless(es) && Edited(es, edit).Ok?
    requires !(edit.Add? && edit.entry.name == "") && !(edit.Rename? && edit.newName == "")
    ensures !Nameless(Edited(es, edit).value)
  {
    if edit.Remove? {
      var rest := Without(es, edit.name);
      forall i | 0 <= i < |rest| ensures rest[i].name != "" { WithoutMembers(es, edit.name, rest[i]); }
    }
  }

  // ----- nonces -------------------------------------------------------------------------------

  /** The wallets a call seals, whether or not it lives to replace the file. */
  function Sealed(d: Disk, c: Call): seq<WalletDoc> {
    if c.Init? || Salt(d.main).Err? || Loaded(d.main, c.passphrase).Err? then []
    else
      var es := Edited(Loaded(d.main, c.passphrase).value, c.edit);
      if es.Err? then []
      else
        var ws := Serialised(Derived(c.passphrase, Salt(d.main).value), es.value, c.ivs, |es.value|);
        if ws.Err? then [] else ws.value
  }

  /** What the i-th call of a run seals. */
  function SealedBy(calls: seq<Call>, i: nat): seq<WalletDoc>
    requires i < |calls|
  {
    Sealed(Run(calls[..i]), calls[i])
  }

  /** Each wallet is sealed under the nonce drawn for it. */
  lemma NonceOfWallet(d: Disk, c: Call, m: nat)
    requires m < |Sealed(d, c)|
    ensures c.Change? && (m < |c.ivs| ==> Sealed(d, c)[m].Wallet? && Sealed(d, c)[m].iv == Some(c.ivs[m]))
    ensures m < |c.ivs| ==> Sealed(d, c)[m].ct.Some? && Sealed(d, c)[m].ct.value.Box? && Sealed(d, c)[m].ct.value.iv == c.ivs[m]
  {
    var es := Edited(Loaded(d.main, c.passphrase).value, c.edit).value;
    SaveMeaning(Derived(c.passphrase, Salt(d.main).value), es, c.ivs, |es|);
  }

  /** Every call draws a nonce for each wallet it seals, and no nonce is drawn twice. */
  ghost predicate FreshDraws(calls: seq<Call>) {
    && (forall i :: 0 <= i < |calls| && calls[i].Change? ==> |SealedBy(calls, i)| <= |calls[i].ivs|)
    && (forall i, j, m, n ::
          0 <= i < |calls| && 0 <= j < |calls| && calls[i].Change? && calls[j].Change?
          && 0 <= m < |calls[i].ivs| && 0 <= n < |calls[j].ivs| && (i, m) != (j, n) ==>
            calls[i].ivs[m] != calls[j].ivs[n])
  }

  /** Then no two wallets that a run ever seals share a nonce, of one file or of two. */
  lemma NoncesNeverReused(calls: seq<Call>, i: nat, j: nat, m: nat, n: nat)
    requires FreshDraws(calls) && i < |calls| && j < |calls| && m < |SealedBy(calls, i)| && n < |SealedBy(calls, j)|
    requires (i, m) != (j, n)
    ensures SealedBy(calls, i)[m].Wallet? && SealedBy(calls, j)[n].Wallet?
    ensures SealedBy(calls, i)[m].iv.Some? && SealedBy(calls, j)[n].iv.Some?
    ensures SealedBy(calls, i)[m].iv != SealedBy(calls, j)[n].iv
  {
    NonceOfWallet(Run(calls[..i]), calls[i], m);
    NonceOfWallet(Run(calls[..j]), calls[j], n);
  }

  /** The file holds what one call sealed. */
  predicate HoldsOf(main: Option<File>, ws: seq<WalletDoc>) {
    main.Some? && main.value.content.Doc? && main.value.content.wallets == Some(ws)
  }

  lemma CallReplaces(d: Disk, c: Call)
    ensures Exec(d, c).main == d.main || HoldsOf(Exec(d, c).main, Sealed(d, c))
  {}

  /** After any run the file, if there is one, is the work of one call. */
  lemma {:induction false} FileOfOneCall(calls: seq<Call>) returns (i: nat)
    ensures Run(calls).main.Some? ==> i < |calls| && HoldsOf(Run(calls).main, SealedBy(calls, i))
  {
    i := 0;
    if calls != [] {
      var cut, last := calls[..|calls| - 1], |calls| - 1;
      i := FileOfOneCall(cut);
      CallReplaces(Run(cut), calls[last]);
      if Run(calls).main != Run(cut).main {
        i := last;
      } else if i < |cut| {
        assert cut[..i] == calls[..i];
      }
    }
  }

  /** The wallets of a keystore file have pairwise different nonces after any run. */
  lemma FileNoncesDiffer(calls: seq<Call>, m: nat, n: nat)
    requires FreshDraws(calls) && Run(calls).main.Some?
    requires var doc := Run(calls).main.value.content; doc.Doc? && doc.wallets.Some? ==> m < n < |doc.wallets.value|
    ensures var doc := Run(calls).main.value.content;
            && doc.Doc? && doc.wallets.Some?
            && var ws := doc.wallets.value;
               ws[m].Wallet? && ws[n].Wallet? && ws[m].iv.Some? && ws[n].iv.Some? && ws[m].iv != ws[n].iv
  {
    var i := FileOfOneCall(calls);
    NoncesNeverReused(calls, i, i, m, n);
  }

  /** So has the file of a single save. */
  lemma SaveNoncesDiffer(d: Disk, passphrase: Bytes, es: seq<Entry>, salt: Bytes, ivs: seq<Bytes>, m: nat, n: nat)
    requires Distinct(es) && ValidKeys(es) && m < n < |es| <= |ivs|
    requires forall i, j :: 0 <= i < j < |ivs| ==> ivs[i] != ivs[j]
    ensures var main := AfterSave(d, passphrase, es, salt, ivs, ALL_EFFECTS).0.main;
            && main.Some? && main.value.content.Doc? && main.value.content.wallets.Some?
            && var ws := main.value.content.wallets.value;
               |ws| == |es| && ws[m].Wallet? && ws[n].Wallet?
               && ws[m].iv == Some(ivs[m]) && ws[n].iv == Some(ivs[n]) && ws[m].iv != ws[n].iv
  {
    SaveMeaning(Derived(passphrase, salt), es, ivs, |es|);
    assert es[..|es|] == es;
  }
}
