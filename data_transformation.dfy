/**
 * Record flattening and tagging (shared/utils/data_transformation.py).
 *
 * `flatten_json` walks a nested value and writes one entry per scalar leaf into a
 * dict shared by its recursive inner function; the key of a leaf is the path of
 * dict keys and list indices that leads to it, each followed by the separator,
 * with trailing separator characters stripped. The specification of that walk is
 * `Leaves` (the leaf entries in visiting order) folded into a dict by `PutAll`.
 */
module DataTransformation {
  import opened Wrappers
  import opened Errors
  import opened Json

  const NotAListMessage := "The first argument must be a list of dictionaries."
  const NotADictMessage := "All elements in the list must be dictionaries."

  /* ---------- str(index) ---------- */

  predicate IsDigit(c: char) {
    '0' <= c <= '9'
  }

  function DigitChar(d: nat): (c: char)
    requires d < 10
    ensures IsDigit(c) && c as int - '0' as int == d
  {
    (d + '0' as int) as char
  }

  /** Python's `str(n)` for a list index. */
  function DecimalString(n: nat): (s: string)
    ensures |s| >= 1
    ensures forall i :: 0 <= i < |s| ==> IsDigit(s[i])
    ensures s[0] == '0' ==> n == 0
    decreases n
  {
    if n < 10 then [DigitChar(n)] else DecimalString(n / 10) + [DigitChar(n % 10)]
  }

  function DigitValue(c: char): nat
    requires IsDigit(c)
  {
    c as int - '0' as int
  }

  /** The number a string of decimal digits denotes. */
  function DecimalValue(s: string): nat
    requires forall i :: 0 <= i < |s| ==> IsDigit(s[i])
  {
    if s == [] then 0
    else DecimalValue(s[..|s| - 1]) * 10 + DigitValue(s[|s| - 1])
  }

  /** Reading back an index's decimal string gives the index, so distinct indices name distinct paths. */
  lemma {:induction false} DecimalRoundTrip(n: nat)
    ensures DecimalValue(DecimalString(n)) == n
    decreases n
  {
    if n >= 10 {
      DecimalRoundTrip(n / 10);
      var s := DecimalString(n);
      assert s[..|s| - 1] == DecimalString(n / 10);
    }
  }

  lemma DecimalStringInjective(m: nat, n: nat)
    requires DecimalString(m) == DecimalString(n)
    ensures m == n
  {
    DecimalRoundTrip(m);
    DecimalRoundTrip(n);
  }

  /* ---------- str.rstrip(chars) ---------- */

  /**
   * `s.rstrip(chars)`: the longest prefix of s that does not end in a character occurring in chars.
   */
  function RStrip(s: string, chars: string): (r: string)
    ensures |r| <= |s| && r == s[..|r|]
    ensures r == [] || r[|r| - 1] !in chars
    ensures forall i :: |r| <= i < |s| ==> s[i] in chars
    decreases |s|
  {
    if |s| > 0 && s[|s| - 1] in chars then RStrip(s[..|s| - 1], chars) else s
  }

  /** Appending stripped characters does not change the stripped result. */
  lemma {:induction false} RStripIgnoresStrippable(s: string, t: string, chars: string)
    requires forall i :: 0 <= i < |t| ==> t[i] in chars
    ensures RStrip(s + t, chars) == RStrip(s, chars)
    decreases |t|
  {
    if |t| > 0 {
      assert (s + t)[|s + t| - 1] == t[|t| - 1];
      assert (s + t)[..|s + t| - 1] == s + t[..|t| - 1];
      assert RStrip(s + t, chars) == RStrip(s + t[..|t| - 1], chars);
      RStripIgnoresStrippable(s, t[..|t| - 1], chars);
    } else {
      assert s + t == s;
    }
  }

  /* ---------- the leaf entries of a value ---------- */

  /**
   * The entries `flatten` writes, in the order it writes them: a dict key k under
   * prefix p continues with prefix p + k + sep, a list element at index i with
   * p + str(i) + sep, and a scalar is written under its prefix with trailing
   * separator characters stripped.
   */
  function Leaves(e: Json, prefix: string, sep: string): Fields
    decreases e
  {
    match e
    case Obj(fs) => FieldLeaves(e, |fs|, prefix, sep)
    case Arr(xs) => ElemLeaves(e, |xs|, prefix, sep)
    case _ => [(RStrip(prefix, sep), e)]
  }

  /** The entries written for the first n fields of a dict. */
  function FieldLeaves(e: Json, n: nat, prefix: string, sep: string): Fields
    requires e.Obj? && n <= |e.fields|
    decreases e, n
  {
    if n == 0 then []
    else FieldLeaves(e, n - 1, prefix, sep) + Leaves(e.fields[n - 1].1, prefix + e.fields[n - 1].0 + sep, sep)
  }

  /** The entries written for the first n elements of a list. */
  function ElemLeaves(e: Json, n: nat, prefix: string, sep: string): Fields
    requires e.Arr? && n <= |e.elems|
    decreases e, n
  {
    if n == 0 then []
    else ElemLeaves(e, n - 1, prefix, sep) + Leaves(e.elems[n - 1], prefix + DecimalString(n - 1) + sep, sep)
  }

  /** The value entries has last assigned to key, if any. */
  function LastAssigned(entries: Fields, key: string): Option<Json> {
    if entries == [] then None
    else if entries[|entries| - 1].0 == key then Some(entries[|entries| - 1].1)
    else LastAssigned(entries[..|entries| - 1], key)
  }

  /** Executing `d[k] = v` for every entry, in order. */
  function PutAll(d: Fields, entries: Fields): Fields {
    if entries == [] then d
    else Put(PutAll(d, entries[..|entries| - 1]), entries[|entries| - 1].0, entries[|entries| - 1].1)
  }

  /** The keys of a dict literal with one more entry. */
  lemma KeySetSnoc(entries: Fields)
    requires entries != []
    ensures KeySet(entries) == KeySet(entries[..|entries| - 1]) + {entries[|entries| - 1].0}
  {
    var init := entries[..|entries| - 1];
    forall k | k in KeySet(entries) ensures k in KeySet(init) + {entries[|entries| - 1].0} {
      var j :| 0 <= j < |entries| && entries[j].0 == k;
      if j < |init| { assert init[j].0 == k; }
    }
    forall k | k in KeySet(init) ensures k in KeySet(entries) {
      var j :| 0 <= j < |init| && init[j].0 == k;
      assert entries[j].0 == k;
    }
    assert entries[|init|].0 == entries[|entries| - 1].0;
  }

  /**
   * After PutAll each key reads as the value last assigned to it, or as before when the
   * entries never assign it; the keys are the old ones and the assigned ones; every entry
   * of the result is an old entry or an assigned one.
   */
  lemma {:induction false} PutAllReads(d: Fields, entries: Fields)
    ensures KeySet(PutAll(d, entries)) == KeySet(d) + KeySet(entries)
    ensures forall k :: Get(PutAll(d, entries), k) ==
                        if LastAssigned(entries, k).Some? then LastAssigned(entries, k) else Get(d, k)
    ensures forall i :: 0 <= i < |PutAll(d, entries)| ==> PutAll(d, entries)[i] in d || PutAll(d, entries)[i] in entries
    decreases |entries|
  {
    if entries != [] {
      var init := entries[..|entries| - 1];
      var last := entries[|entries| - 1];
      PutAllReads(d, init);
      PutReads(PutAll(d, init), last.0, last.1);
      KeySetSnoc(entries);
      forall i | 0 <= i < |PutAll(d, entries)|
        ensures PutAll(d, entries)[i] in d || PutAll(d, entries)[i] in entries
      {
        var x := PutAll(d, entries)[i];
        if x != last {
          assert x in PutAll(d, init);
          var j :| 0 <= j < |PutAll(d, init)| && PutAll(d, init)[j] == x;
          if x !in d {
            var m :| 0 <= m < |init| && init[m] == x;
            assert entries[m] == x;
          }
        } else {
          assert entries[|entries| - 1] == x;
        }
      }
    }
  }

  lemma {:induction false} PutAllConcat(d: Fields, xs: Fields, ys: Fields)
    ensures PutAll(d, xs + ys) == PutAll(PutAll(d, xs), ys)
    decreases |ys|
  {
    if ys == [] {
      assert xs + ys == xs;
    } else {
      var init := ys[..|ys| - 1];
      assert (xs + ys)[..|xs + ys| - 1] == xs + init;
      PutAllConcat(d, xs, init);
    }
  }

  /** What `flatten_json(nested, sep)` returns. */
  function Flattened(nested: Json, sep: string): Fields {
    PutAll([], Leaves(nested, "", sep))
  }

  /* ---------- what the leaves are ---------- */

  /** Every value `flatten` writes is a scalar: dicts and lists are always descended into. */
  lemma {:induction false} LeavesAreScalar(e: Json, prefix: string, sep: string)
    ensures forall i :: 0 <= i < |Leaves(e, prefix, sep)| ==> IsScalar(Leaves(e, prefix, sep)[i].1)
    decreases e, 1
  {
    if e.Obj? {
      FieldLeavesAreScalar(e, |e.fields|, prefix, sep);
    } else if e.Arr? {
      ElemLeavesAreScalar(e, |e.elems|, prefix, sep);
    }
  }

  lemma {:induction false} FieldLeavesAreScalar(e: Json, n: nat, prefix: string, sep: string)
    requires e.Obj? && n <= |e.fields|
    ensures forall i :: 0 <= i < |FieldLeaves(e, n, prefix, sep)| ==> IsScalar(FieldLeaves(e, n, prefix, sep)[i].1)
    decreases e, 0, n
  {
    if n > 0 {
      FieldLeavesAreScalar(e, n - 1, prefix, sep);
      LeavesAreScalar(e.fields[n - 1].1, prefix + e.fields[n - 1].0 + sep, sep);
    }
  }

  lemma {:induction false} ElemLeavesAreScalar(e: Json, n: nat, prefix: string, sep: string)
    requires e.Arr? && n <= |e.elems|
    ensures forall i :: 0 <= i < |ElemLeaves(e, n, prefix, sep)| ==> IsScalar(ElemLeaves(e, n, prefix, sep)[i].1)
    decreases e, 0, n
  {
    if n > 0 {
      ElemLeavesAreScalar(e, n - 1, prefix, sep);
      LeavesAreScalar(e.elems[n - 1], prefix + DecimalString(n - 1) + sep, sep);
    }
  }

  /** Every value in `flatten_json`'s result is a scalar, never a dict or a list. */
  lemma FlattenedValuesAreScalar(nested: Json, sep: string)
    ensures forall i :: 0 <= i < |Flattened(nested, sep)| ==> IsScalar(Flattened(nested, sep)[i].1)
  {
    LeavesAreScalar(nested, "", sep);
    PutAllReads([], Leaves(nested, "", sep));
  }

  /**
   * The key prefix and the value reached from e by following child positions (the index of a
   * dict entry or of a list element): each dict key k extends the prefix by k + sep, each list
   * index i by str(i) + sep.
   */
  function Descend(e: Json, path: seq<nat>, prefix: string, sep: string): Option<(string, Json)>
    decreases path
  {
    if path == [] then Some((prefix, e))
    else if e.Obj? && path[0] < |e.fields| then
      Descend(e.fields[path[0]].1, path[1..], prefix + e.fields[path[0]].0 + sep, sep)
    else if e.Arr? && path[0] < |e.elems| then
      Descend(e.elems[path[0]], path[1..], prefix + DecimalString(path[0]) + sep, sep)
    else None
  }

  lemma {:induction false} FieldLeavesInclude(e: Json, n: nat, i: nat, prefix: string, sep: string)
    requires e.Obj? && i < n <= |e.fields|
    ensures forall x :: x in Leaves(e.fields[i].1, prefix + e.fields[i].0 + sep, sep) ==> x in FieldLeaves(e, n, prefix, sep)
    decreases n
  {
    if i < n - 1 {
      FieldLeavesInclude(e, n - 1, i, prefix, sep);
    }
  }

  lemma {:induction false} ElemLeavesInclude(e: Json, n: nat, i: nat, prefix: string, sep: string)
    requires e.Arr? && i < n <= |e.elems|
    ensures forall x :: x in Leaves(e.elems[i], prefix + DecimalString(i) + sep, sep) ==> x in ElemLeaves(e, n, prefix, sep)
    decreases n
  {
    if i < n - 1 {
      ElemLeavesInclude(e, n - 1, i, prefix, sep);
    }
  }

  /** Every scalar reachable by a path is written, under its path with trailing separator characters stripped. */
  lemma {:induction false} ScalarLeafIsWritten(e: Json, path: seq<nat>, prefix: string, sep: string)
    requires Descend(e, path, prefix, sep).Some? && IsScalar(Descend(e, path, prefix, sep).value.1)
    ensures (RStrip(Descend(e, path, prefix, sep).value.0, sep), Descend(e, path, prefix, sep).value.1) in Leaves(e, prefix, sep)
    decreases path
  {
    if path != [] {
      var i := path[0];
      if e.Obj? {
        ScalarLeafIsWritten(e.fields[i].1, path[1..], prefix + e.fields[i].0 + sep, sep);
        FieldLeavesInclude(e, |e.fields|, i, prefix, sep);
      } else {
        ScalarLeafIsWritten(e.elems[i], path[1..], prefix + DecimalString(i) + sep, sep);
        ElemLeavesInclude(e, |e.elems|, i, prefix, sep);
      }
    }
  }

  lemma {:induction false} FieldLeavesOrigin(e: Json, n: nat, prefix: string, sep: string, x: (string, Json)) returns (i: nat)
    requires e.Obj? && n <= |e.fields| && x in FieldLeaves(e, n, prefix, sep)
    ensures i < n && x in Leaves(e.fields[i].1, prefix + e.fields[i].0 + sep, sep)
    decreases n
  {
    if x in FieldLeaves(e, n - 1, prefix, sep) {
      i := FieldLeavesOrigin(e, n - 1, prefix, sep, x);
    } else {
      i := n - 1;
    }
  }

  lemma {:induction false} ElemLeavesOrigin(e: Json, n: nat, prefix: string, sep: string, x: (string, Json)) returns (i: nat)
    requires e.Arr? && n <= |e.elems| && x in ElemLeaves(e, n, prefix, sep)
    ensures i < n && x in Leaves(e.elems[i], prefix + DecimalString(i) + sep, sep)
    decreases n
  {
    if x in ElemLeaves(e, n - 1, prefix, sep) {
      i := ElemLeavesOrigin(e, n - 1, prefix, sep, x);
    } else {
      i := n - 1;
    }
  }

  /** Conversely, every written entry is a scalar reached by some path, keyed by that path stripped. */
  lemma {:induction false} WrittenEntryHasPath(e: Json, prefix: string, sep: string, x: (string, Json)) returns (path: seq<nat>)
    requires x in Leaves(e, prefix, sep)
    ensures Descend(e, path, prefix, sep).Some?
    ensures IsScalar(x.1) && x.1 == Descend(e, path, prefix, sep).value.1
    ensures x.0 == RStrip(Descend(e, path, prefix, sep).value.0, sep)
    decreases e
  {
    if e.Obj? {
      var i := FieldLeavesOrigin(e, |e.fields|, prefix, sep, x);
      var rest := WrittenEntryHasPath(e.fields[i].1, prefix + e.fields[i].0 + sep, sep, x);
      path := [i] + rest;
      assert path[1..] == rest;
    } else if e.Arr? {
      var i := ElemLeavesOrigin(e, |e.elems|, prefix, sep, x);
      var rest := WrittenEntryHasPath(e.elems[i], prefix + DecimalString(i) + sep, sep, x);
      path := [i] + rest;
      assert path[1..] == rest;
    } else {
      path := [];
    }
  }

  /* ---------- empty containers and flat input ---------- */

  lemma {:induction false} FieldLeavesAgree(e1: Json, e2: Json, n: nat, prefix: string, sep: string)
    requires e1.Obj? && e2.Obj? && n <= |e1.fields| && n <= |e2.fields| && e1.fields[..n] == e2.fields[..n]
    ensures FieldLeaves(e1, n, prefix, sep) == FieldLeaves(e2, n, prefix, sep)
    decreases n
  {
    if n > 0 {
      assert e1.fields[n - 1] == e1.fields[..n][n - 1] == e2.fields[n - 1];
      assert e1.fields[..n - 1] == e1.fields[..n][..n - 1];
      assert e2.fields[..n - 1] == e2.fields[..n][..n - 1];
      FieldLeavesAgree(e1, e2, n - 1, prefix, sep);
    }
  }

  lemma {:induction false} ElemLeavesAgree(e1: Json, e2: Json, n: nat, prefix: string, sep: string)
    requires e1.Arr? && e2.Arr? && n <= |e1.elems| && n <= |e2.elems| && e1.elems[..n] == e2.elems[..n]
    ensures ElemLeaves(e1, n, prefix, sep) == ElemLeaves(e2, n, prefix, sep)
    decreases n
  {
    if n > 0 {
      assert e1.elems[n - 1] == e1.elems[..n][n - 1] == e2.elems[n - 1];
      assert e1.elems[..n - 1] == e1.elems[..n][..n - 1];
      assert e2.elems[..n - 1] == e2.elems[..n][..n - 1];
      ElemLeavesAgree(e1, e2, n - 1, prefix, sep);
    }
  }

  /** The entries of a dict's fields a + b are those of a followed by those of b. */
  lemma {:induction false} FieldLeavesSplit(a: Fields, b: Fields, m: nat, prefix: string, sep: string)
    requires m <= |b|
    ensures FieldLeaves(Obj(a + b), |a| + m, prefix, sep) == FieldLeaves(Obj(a), |a|, prefix, sep) + FieldLeaves(Obj(b), m, prefix, sep)
    decreases m
  {
    if m == 0 {
      assert (a + b)[..|a|] == a[..|a|];
      FieldLeavesAgree(Obj(a + b), Obj(a), |a|, prefix, sep);
    } else {
      FieldLeavesSplit(a, b, m - 1, prefix, sep);
      assert (a + b)[|a| + m - 1] == b[m - 1];
    }
  }

  /** An empty dict or list nested under any key writes nothing: removing it changes no entry. */
  lemma EmptyNestedValueVanishes(a: Fields, key: string, empty: Json, b: Fields, prefix: string, sep: string)
    requires empty == Obj([]) || empty == Arr([])
    ensures Leaves(Obj(a + [(key, empty)] + b), prefix, sep) == Leaves(Obj(a + b), prefix, sep)
    ensures prefix == "" ==> Flattened(Obj(a + [(key, empty)] + b), sep) == Flattened(Obj(a + b), sep)
  {
    var a' := a + [(key, empty)];
    FieldLeavesSplit(a', b, |b|, prefix, sep);
    FieldLeavesSplit(a, [(key, empty)], 1, prefix, sep);
    FieldLeavesSplit(a, b, |b|, prefix, sep);
    assert FieldLeaves(Obj([(key, empty)]), 1, prefix, sep) == [];
  }

  /** An empty dict or list at the end of a list writes nothing. */
  lemma EmptyTrailingElementVanishes(xs: seq<Json>, empty: Json, prefix: string, sep: string)
    requires empty == Obj([]) || empty == Arr([])
    ensures Leaves(Arr(xs + [empty]), prefix, sep) == Leaves(Arr(xs), prefix, sep)
  {
    assert (xs + [empty])[..|xs|] == xs[..|xs|];
    assert (xs + [empty])[|xs|] == empty;
    assert Leaves(empty, prefix + DecimalString(|xs|) + sep, sep) == [];
    ElemLeavesAgree(Arr(xs + [empty]), Arr(xs), |xs|, prefix, sep);
  }

  /** No key ends in a character of the separator. */
  predicate KeysNotSeparatorTerminated(fs: Fields, sep: string) {
    forall i :: 0 <= i < |fs| ==> fs[i].0 == [] || fs[i].0[|fs[i].0| - 1] !in sep
  }

  lemma {:induction false} FlatFieldLeaves(fs: Fields, n: nat, sep: string)
    requires n <= |fs|
    requires forall i :: 0 <= i < |fs| ==> IsScalar(fs[i].1)
    requires KeysNotSeparatorTerminated(fs, sep)
    ensures FieldLeaves(Obj(fs), n, "", sep) == fs[..n]
    decreases n
  {
    if n > 0 {
      FlatFieldLeaves(fs, n - 1, sep);
      FlatFieldLeaf(fs, n, sep);
      assert fs[..n] == fs[..n - 1] + [fs[n - 1]];
    }
  }

  /** The n-th field of a flat dict adds exactly that field. */
  lemma FlatFieldLeaf(fs: Fields, n: nat, sep: string)
    requires 0 < n <= |fs|
    requires IsScalar(fs[n - 1].1)
    requires fs[n - 1].0 == [] || fs[n - 1].0[|fs[n - 1].0| - 1] !in sep
    ensures FieldLeaves(Obj(fs), n, "", sep) == FieldLeaves(Obj(fs), n - 1, "", sep) + [fs[n - 1]]
  {
    FlatLeaf(fs[n - 1].0, fs[n - 1].1, sep);
  }

  /** A scalar under a key that does not end in a separator character is written under that key. */
  lemma FlatLeaf(k: string, v: Json, sep: string)
    requires IsScalar(v)
    requires k == [] || k[|k| - 1] !in sep
    ensures Leaves(v, "" + k + sep, sep) == [(k, v)]
  {
    assert "" + k + sep == k + sep;
    assert forall i :: 0 <= i < |sep| ==> sep[i] in sep;
    RStripIgnoresStrippable(k, sep, sep);
  }

  lemma {:induction false} PutAllDistinct(fs: Fields, n: nat)
    requires n <= |fs| && UniqueKeys(fs)
    ensures PutAll([], fs[..n]) == fs[..n]
    decreases n
  {
    if n > 0 {
      PutAllDistinct(fs, n - 1);
      assert fs[..n][..n - 1] == fs[..n - 1];
      var k := fs[n - 1].0;
      assert k !in KeySet(fs[..n - 1]);
      PutReads(fs[..n - 1], k, fs[n - 1].1);
      assert fs[..n] == fs[..n - 1] + [fs[n - 1]];
    }
  }

  /**
   * `flatten_json` returns its argument unchanged when that is already a flat dict: every value
   * a scalar, keys distinct and none ending in a separator character.
   */
  lemma FlatDictIsFixedPoint(fs: Fields, sep: string)
    requires UniqueKeys(fs)
    requires forall i :: 0 <= i < |fs| ==> IsScalar(fs[i].1)
    requires KeysNotSeparatorTerminated(fs, sep)
    ensures Flattened(Obj(fs), sep) == fs
  {
    FlatFieldLeaves(fs, |fs|, sep);
    PutAllDistinct(fs, |fs|);
    assert fs[..|fs|] == fs;
  }

  /* ---------- flatten_json and flatten_list_of_dicts ---------- */

  /** The inner `flatten`: writes the leaves of e under prefix into the shared dict. */
  method FlattenInto(e: Json, prefix: string, sep: string, flattened: Fields) returns (out: Fields)
    ensures out == PutAll(flattened, Leaves(e, prefix, sep))
    decreases e, 1
  {
    if e.Obj? {
      out := FlattenFields(e, prefix, sep, flattened);
    } else if e.Arr? {
      out := FlattenElems(e, prefix, sep, flattened);
    } else {
      out := Put(flattened, RStrip(prefix, sep), e);
    }
  }

  /** The loop over `current_element.items()`. */
  method FlattenFields(e: Json, prefix: string, sep: string, flattened: Fields) returns (out: Fields)
    requires e.Obj?
    ensures out == PutAll(flattened, FieldLeaves(e, |e.fields|, prefix, sep))
    decreases e, 0
  {
    out := flattened;
    var i := 0;
    while i < |e.fields|
      invariant 0 <= i <= |e.fields|
      invariant out == PutAll(flattened, FieldLeaves(e, i, prefix, sep))
    {
      var key, value := e.fields[i].0, e.fields[i].1;
      assert FieldLeaves(e, i + 1, prefix, sep) == FieldLeaves(e, i, prefix, sep) + Leaves(value, prefix + key + sep, sep);
      PutAllConcat(flattened, FieldLeaves(e, i, prefix, sep), Leaves(value, prefix + key + sep, sep));
      out := FlattenInto(value, prefix + key + sep, sep, out);
      i := i + 1;
    }
  }

  /** The loop over `enumerate(current_element)`. */
  method FlattenElems(e: Json, prefix: string, sep: string, flattened: Fields) returns (out: Fields)
    requires e.Arr?
    ensures out == PutAll(flattened, ElemLeaves(e, |e.elems|, prefix, sep))
    decreases e, 0
  {
    out := flattened;
    var i := 0;
    while i < |e.elems|
      invariant 0 <= i <= |e.elems|
      invariant out == PutAll(flattened, ElemLeaves(e, i, prefix, sep))
    {
      var item := e.elems[i];
      PutAllConcat(flattened, ElemLeaves(e, i, prefix, sep), Leaves(item, prefix + DecimalString(i) + sep, sep));
      out := FlattenInto(item, prefix + DecimalString(i) + sep, sep, out);
      i := i + 1;
    }
  }

  /** `flatten_json(nested_json, separator='.')`. */
  method FlattenJson(nested: Json, sep: string := ".") returns (flat: Fields)
    ensures flat == Flattened(nested, sep)
  {
    flat := FlattenInto(nested, "", sep, []);
  }

  /** `flatten_list_of_dicts`: element i of the result is element i flattened. */
  method FlattenListOfDicts(dicts: seq<Json>, sep: string := ".") returns (flattenedDicts: seq<Fields>)
    ensures |flattenedDicts| == |dicts|
    ensures forall i :: 0 <= i < |dicts| ==> flattenedDicts[i] == Flattened(dicts[i], sep)
  {
    flattenedDicts := [];
    var i := 0;
    while i < |dicts|
      invariant 0 <= i <= |dicts|
      invariant |flattenedDicts| == i
      invariant forall j :: 0 <= j < i ==> flattenedDicts[j] == Flattened(dicts[j], sep)
    {
      var flat := FlattenJson(dicts[i], sep);
      flattenedDicts := flattenedDicts + [flat];
      i := i + 1;
    }
  }

  /** The flattened form of every dict of a list, as a function. */
  function FlattenedAll(dicts: seq<Json>, sep: string): (r: seq<Fields>)
    ensures |r| == |dicts| && forall i :: 0 <= i < |dicts| ==> r[i] == Flattened(dicts[i], sep)
  {
    seq(|dicts|, i requires 0 <= i < |dicts| => Flattened(dicts[i], sep))
  }

  /* ---------- add_key_value_to_dicts ---------- */

  /** The position of the first element that is not a dict, or |xs| when all are. */
  function FirstNonDict(xs: seq<Json>): (k: nat)
    ensures k <= |xs|
    ensures forall i :: 0 <= i < k ==> xs[i].Obj?
    ensures k < |xs| ==> !xs[k].Obj?
  {
    if xs == [] || !xs[0].Obj? then 0 else 1 + FirstNonDict(xs[1..])
  }

  /** `dictionary[key] = value` on one dict. */
  function SetKey(d: Json, key: string, value: Json): Json
    requires d.Obj?
  {
    Obj(Put(d.fields, key, value))
  }

  /** The list after the loop has assigned key in each of its first n elements. */
  function SetKeyBefore(xs: seq<Json>, n: nat, key: string, value: Json): seq<Json>
    requires n <= FirstNonDict(xs)
  {
    seq(|xs|, i requires 0 <= i < |xs| => if i < n then SetKey(xs[i], key, value) else xs[i])
  }

  /** The list `add_key_value_to_dicts` leaves behind: every dict before the first non-dict tagged. */
  function Tagged(xs: seq<Json>, key: string, value: Json): seq<Json> {
    SetKeyBefore(xs, FirstNonDict(xs), key, value)
  }

  /**
   * `add_key_value_to_dicts`: a non-list argument raises before anything changes; otherwise every
   * dict up to the first non-dict element gets key := value, and that element (if any) raises.
   * The dicts are updated in place, so those before a failing element stay updated.
   */
  method AddKeyValueToDicts(dictsList: Json, key: string, value: Json) returns (updated: Json, err: Option<Error>)
    ensures !dictsList.Arr? ==> updated == dictsList && err == Some(ValueError(NotAListMessage))
    ensures dictsList.Arr? ==>
      var k := FirstNonDict(dictsList.elems);
      && updated == Arr(Tagged(dictsList.elems, key, value))
      && (k < |dictsList.elems| ==> err == Some(ValueError(NotADictMessage)))
      && (k == |dictsList.elems| ==> err == None)
  {
    if !dictsList.Arr? {
      return dictsList, Some(ValueError(NotAListMessage));
    }
    var xs := dictsList.elems;
    var items := xs;
    var i := 0;
    while i < |xs|
      invariant 0 <= i <= |xs|
      invariant i <= FirstNonDict(xs)
      invariant items == SetKeyBefore(xs, i, key, value)
    {
      if !items[i].Obj? {
        return Arr(items), Some(ValueError(NotADictMessage));
      }
      items := items[i := SetKey(items[i], key, value)];
      i := i + 1;
    }
    return Arr(items), None;
  }

  /**
   * After tagging the first n elements, each of them is a dict whose key reads as value and whose
   * other keys read as before; the later elements are untouched and the length is kept.
   */
  lemma SetKeyBeforeReads(xs: seq<Json>, n: nat, key: string, value: Json, i: nat)
    requires n <= FirstNonDict(xs) && i < |xs|
    ensures |SetKeyBefore(xs, n, key, value)| == |xs|
    ensures i < n ==> SetKeyBefore(xs, n, key, value)[i].Obj?
    ensures i < n ==> Get(SetKeyBefore(xs, n, key, value)[i].fields, key) == Some(value)
    ensures i < n ==> forall k :: k != key ==> Get(SetKeyBefore(xs, n, key, value)[i].fields, k) == Get(xs[i].fields, k)
    ensures n <= i ==> SetKeyBefore(xs, n, key, value)[i] == xs[i]
  {
    if i < n {
      PutReads(xs[i].fields, key, value);
    }
  }
}
