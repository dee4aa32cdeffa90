/** The identifier registry of bot.py: a table from a base identifier to the
    number of identifiers minted for it, kept in a counter file that is read
    when the program starts and rewritten after every mint. */
module UidRegistry {
  import opened Decimal

  /** The counter table: base identifier to count. */
  type Table = map<string, nat>

  /** What the counter file holds when it exists: either text that does not
      parse as the JSON object of counts, or a parsed table. */
  datatype Contents = Malformed | Counts(table: Table)

  /** The counter file on disk. */
  datatype FileState = Absent | Present(contents: Contents)

  /** Loading at startup: the parsed table when the file exists and parses,
      and the empty table when it is missing or does not parse. */
  function Load(f: FileState): (t: Table)
    ensures f.Present? && f.contents.Counts? ==> t == f.contents.table
    ensures !(f.Present? && f.contents.Counts?) ==> t == map[]
  {
    match f
    case Absent => map[]
    case Present(Malformed) => map[]
    case Present(Counts(table)) => table
  }

  /** Saving: the file is opened for writing, so whatever it held before is
      replaced by the whole table, and loading it again yields that table. */
  function Written(t: Table): (f: FileState)
    ensures Load(f) == t
  {
    Present(Counts(t))
  }

  /** The count of a base identifier; a missing key counts as 0. */
  function Count(t: Table, base: string): nat {
    if base in t then t[base] else 0
  }

  /** t2 keeps every key of t1 with a count at least as large. */
  ghost predicate Extends(t1: Table, t2: Table) {
    forall k :: k in t1 ==> k in t2 && t1[k] <= t2[k]
  }

  /** The table after one mint of base: base now has its old count plus one
      (1 when it was missing), it is the only key that may be new, and every
      other key keeps its count. */
  function Bump(t: Table, base: string): (t': Table)
    ensures base in t' && t'[base] == Count(t, base) + 1
    ensures base !in t ==> t'[base] == 1
    ensures t'.Keys == t.Keys + {base}
    ensures forall k :: k in t && k != base ==> t'[k] == t[k]
    ensures Extends(t, t')
  {
    t[base := Count(t, base) + 1]
  }

  /** A minted identifier: the base, a dash and the count in decimal. */
  function UidOf(base: string, count: nat): (uid: string)
    ensures |uid| > |base| + 1
    ensures uid[..|base|] == base && uid[|base|] == '-'
    ensures AllDigits(uid[|base| + 1..]) && ValueOf(uid[|base| + 1..]) == count
  {
    ValueOfNatToString(count);
    var uid := base + "-" + NatToString(count);
    assert uid[|base| + 1..] == NatToString(count);
    uid
  }

  /** The index of the last '-' in s, or -1 when there is none. */
  function LastDash(s: string): (i: int)
    ensures -1 <= i < |s|
    ensures i >= 0 ==> s[i] == '-'
    ensures forall j :: i < j < |s| ==> s[j] != '-'
    decreases |s|
  {
    if s == [] then -1
    else if s[|s| - 1] == '-' then |s| - 1
    else LastDash(s[..|s| - 1])
  }

  /** Reads an identifier back into its base and count: the base is what
      precedes the last dash, the count is the digits after it. */
  function SplitUid(uid: string): (r: (string, nat))
    requires 0 <= LastDash(uid) && AllDigits(uid[LastDash(uid) + 1..])
  {
    var i := LastDash(uid);
    (uid[..i], ValueOf(uid[i + 1..]))
  }

  /** The digits after the dash hold no dash, so the dash UidOf writes is
      the last one and SplitUid recovers both base and count. */
  lemma SplitUidOf(base: string, count: nat)
    ensures 0 <= LastDash(UidOf(base, count))
    ensures AllDigits(UidOf(base, count)[LastDash(UidOf(base, count)) + 1..])
    ensures SplitUid(UidOf(base, count)) == (base, count)
  {
    var uid := UidOf(base, count);
    var i := LastDash(uid);
    var digits := uid[|base| + 1..];
    forall j | |base| < j < |uid|
      ensures uid[j] != '-'
    {
      assert uid[j] == digits[j - |base| - 1];
    }
    assert i == |base|;
  }

  /** Different (base, count) pairs never give the same identifier, even for
      different bases such as "a" and "a-1". */
  lemma UidOfInjective(b1: string, c1: nat, b2: string, c2: nat)
    requires UidOf(b1, c1) == UidOf(b2, c2)
    ensures b1 == b2 && c1 == c2
  {
    SplitUidOf(b1, c1);
    SplitUidOf(b2, c2);
  }

  /** The identifier the next mint of base returns. */
  function NextId(t: Table, base: string): (uid: string)
    ensures base !in t ==> uid == base + "-1"
    ensures uid == UidOf(base, Bump(t, base)[base])
  {
    assert NatToString(1) == "1";
    UidOf(base, Count(t, base) + 1)
  }

  // ------------------------------------------------------------------
  // The module-level state of bot.py as an object.

  /** uid_counts and the counter file, for the lifetime of one process. */
  class Registry {
    var counts: Table
    var file: FileState

    /** The import of the module: the table is loaded from the counter file. */
    constructor (f: FileState)
      ensures counts == Load(f) && file == f
    {
      counts := Load(f);
      file := f;
    }

    /** The save after a mint: overwrite the file with the whole table. */
    method Save()
      modifies this
      ensures file == Written(counts)
      ensures counts == old(counts)
    {
      file := Present(Counts(counts));
    }

    /** generate_unique_uid: start a missing base at 0, add one, save the
        whole table, then return base-count. */
    method GenerateUniqueUid(base: string) returns (uid: string)
      modifies this
      ensures counts == Bump(old(counts), base)
      ensures file == Written(counts)
      ensures Load(file)[base] == old(Count(counts, base)) + 1
      ensures uid == NextId(old(counts), base)
    {
      if base !in counts {
        counts := counts[base := 0];
      }
      counts := counts[base := counts[base] + 1];
      Save();
      uid := UidOf(base, counts[base]);
    }
  }

  /** One run of the program as far as identifiers go: load the counter file
      at import, mint once in main, and leave the rewritten file behind. */
  method StartAndMint(f: FileState, base: string) returns (uid: string, after: FileState)
    ensures (uid, after) == Run(f, base)
    ensures Load(after) == Bump(Load(f), base)
  {
    var registry := new Registry(f);
    uid := registry.GenerateUniqueUid(base);
    after := registry.file;
  }

  // ------------------------------------------------------------------
  // Successive mints and successive runs, as functions.

  /** One run: the identifier it mints and the file it leaves. */
  function Run(f: FileState, base: string): (r: (string, FileState))
    ensures r.0 == UidOf(base, Count(Load(f), base) + 1)
    ensures r.1.Present? && r.1.contents.Counts?
    ensures Load(r.1) == Bump(Load(f), base)
  {
    var t := Load(f);
    (NextId(t, base), Written(Bump(t, base)))
  }

  /** Mints of bases[0], bases[1], ... in turn on one table: the identifiers
      returned and the final table. */
  function MintAll(t: Table, bases: seq<string>): (r: (seq<string>, Table))
    ensures |r.0| == |bases|
    ensures Extends(t, r.1)
    decreases |bases|
  {
    if bases == [] then ([], t)
    else
      var rest := MintAll(Bump(t, bases[0]), bases[1..]);
      ([NextId(t, bases[0])] + rest.0, rest.1)
  }

  /** Runs of the program one after another, each with base identifier
      bases[i], each starting from the file the previous one left. */
  function Runs(f: FileState, bases: seq<string>): (r: (seq<string>, FileState))
    ensures |r.0| == |bases|
    ensures bases == [] ==> r.1 == f
    ensures bases != [] ==> r.1.Present? && r.1.contents.Counts?
    ensures bases != [] ==> r.0[0] == Run(f, bases[0]).0
    decreases |bases|
  {
    if bases == [] then ([], f)
    else
      var first := Run(f, bases[0]);
      var rest := Runs(first.1, bases[1..]);
      ([first.0] + rest.0, rest.1)
  }

  /** The i-th mint returns base-(n + k), where n is the base's count in the
      starting table and k counts the mints of that base so far, this one
      included. */
  lemma {:induction false} MintAllIds(t: Table, bases: seq<string>, i: nat)
    requires i < |bases|
    ensures MintAll(t, bases).0[i] ==
            UidOf(bases[i], Count(t, bases[i]) + multiset(bases[..i + 1])[bases[i]])
    decreases |bases|
  {
    if i > 0 {
      var t1 := Bump(t, bases[0]);
      MintAllIds(t1, bases[1..], i - 1);
      CountAfterFirst(t, bases, i);
    } else {
      assert bases[..1] == [bases[0]];
    }
  }

  /** The bookkeeping behind MintAllIds: counting mints of bases[i] from
      the second mint on, starting from the table after the first. */
  lemma CountAfterFirst(t: Table, bases: seq<string>, i: nat)
    requires 0 < i < |bases|
    ensures Count(Bump(t, bases[0]), bases[i]) + multiset(bases[1..][..i])[bases[i]]
            == Count(t, bases[i]) + multiset(bases[..i + 1])[bases[i]]
  {
    assert bases[..i + 1] == [bases[0]] + bases[1..][..i];
  }

  /** After the mints, each base's count has grown by the number of times it
      was minted; no key is lost and the only new keys are minted bases. */
  lemma {:induction false} MintAllCounts(t: Table, bases: seq<string>, k: string)
    ensures Count(MintAll(t, bases).1, k) == Count(t, k) + multiset(bases)[k]
    ensures k in MintAll(t, bases).1 <==> k in t || k in bases
    decreases |bases|
  {
    if bases != [] {
      MintAllCounts(Bump(t, bases[0]), bases[1..], k);
      assert bases == [bases[0]] + bases[1..];
    }
  }

  /** Minting the same base again and again on a table that lacks it
      returns base-1, base-2, base-3, ... */
  lemma SuccessiveMints(t: Table, base: string, bases: seq<string>)
    requires base !in t
    requires forall i :: 0 <= i < |bases| ==> bases[i] == base
    ensures forall i :: 0 <= i < |bases| ==> MintAll(t, bases).0[i] == UidOf(base, i + 1)
  {
    forall i | 0 <= i < |bases|
      ensures MintAll(t, bases).0[i] == UidOf(base, i + 1)
    {
      MintAllIds(t, bases, i);
      RepeatCount(base, bases[..i + 1]);
    }
  }

  /** A sequence made only of x holds x as many times as it is long. */
  lemma {:induction false} RepeatCount(x: string, s: seq<string>)
    requires forall i :: 0 <= i < |s| ==> s[i] == x
    ensures multiset(s)[x] == |s|
    decreases |s|
  {
    if s != [] {
      assert s == s[..|s| - 1] + [x];
      RepeatCount(x, s[..|s| - 1]);
    }
  }

  /** A later occurrence of x in s comes after more copies of x. */
  lemma PrefixCountGrows(s: seq<string>, i: nat, j: nat)
    requires i < j < |s| && s[i] == s[j]
    ensures multiset(s[..i + 1])[s[i]] < multiset(s[..j + 1])[s[i]]
  {
    assert s[..j + 1] == s[..i + 1] + s[i + 1..j] + [s[j]];
  }

  /** No two mints on one table return the same identifier, whatever the
      bases: the same base gets a larger count each time, and different
      bases give different identifiers. */
  lemma MintAllNeverRepeats(t: Table, bases: seq<string>)
    ensures forall i, j :: 0 <= i < j < |bases| ==> MintAll(t, bases).0[i] != MintAll(t, bases).0[j]
  {
    var ids := MintAll(t, bases).0;
    forall i, j | 0 <= i < j < |bases|
      ensures ids[i] != ids[j]
    {
      MintAllIds(t, bases, i);
      MintAllIds(t, bases, j);
      if ids[i] == ids[j] {
        UidOfInjective(bases[i], Count(t, bases[i]) + multiset(bases[..i + 1])[bases[i]],
                       bases[j], Count(t, bases[j]) + multiset(bases[..j + 1])[bases[j]]);
        PrefixCountGrows(bases, i, j);
      }
    }
  }

  /** Runs that each reload the file the previous one wrote behave like
      successive mints on one table: the counts survive restarts. */
  lemma {:induction false} RunsAreMints(f: FileState, bases: seq<string>)
    ensures Runs(f, bases).0 == MintAll(Load(f), bases).0
    ensures Load(Runs(f, bases).1) == MintAll(Load(f), bases).1
    decreases |bases|
  {
    if bases != [] {
      RunsAreMints(Run(f, bases[0]).1, bases[1..]);
    }
  }

  /** While nothing but the program touches the counter file, no run ever
      mints an identifier an earlier run minted. */
  lemma RunsNeverRepeat(f: FileState, bases: seq<string>)
    ensures forall i, j :: 0 <= i < j < |bases| ==> Runs(f, bases).0[i] != Runs(f, bases).0[j]
  {
    RunsAreMints(f, bases);
    MintAllNeverRepeats(Load(f), bases);
  }

  /** With no counter file, the first run with base "enemy" mints "enemy-1"
      and the second, reading the file the first wrote, mints "enemy-2". */
  lemma FirstAndSecondRun()
    ensures Runs(Absent, ["enemy", "enemy"]).0 == ["enemy-1", "enemy-2"]
  {
    var bases := ["enemy", "enemy"];
    RunsAreMints(Absent, bases);
    SuccessiveMints(map[], "enemy", bases);
    assert NatToString(1) == "1" && NatToString(2) == "2";
    assert UidOf("enemy", 1) == "enemy-1" && UidOf("enemy", 2) == "enemy-2";
    var ids := Runs(Absent, bases).0;
    assert ids[0] == "enemy-1" && ids[1] == "enemy-2";
  }

  /** A counter file that no longer parses loads as the empty table, so the
      next run mints the identifier the first run minted again. */
  lemma CorruptFileReusesUid(base: string)
    ensures Run(Absent, base).0 == base + "-1"
    ensures Run(Present(Malformed), base).0 == Run(Absent, base).0
  {
  }
}
