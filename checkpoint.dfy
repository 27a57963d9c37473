/**
 * The state-dict key remapping that the evaluation script applies to a checkpoint before loading it
 * (eval.py, `load_model`): keep only the entries whose name starts with "module.", rename each kept
 * entry with Python's `str.replace("module.", "")`, and carry its value over unchanged.
 */
module Checkpoint {
  import opened Wrappers

  /** The prefix `torch.nn.DataParallel` puts in front of every parameter name. */
  const Prefix: string := "module."

  predicate StartsWith(s: string, p: string) {
    |p| <= |s| && s[..|p|] == p
  }

  /** `p` occurs in `s` at index `i`. */
  predicate MatchAt(s: string, p: string, i: nat) {
    i + |p| <= |s| && s[i..i + |p|] == p
  }

  predicate Contains(s: string, p: string) {
    exists i: nat | i <= |s| :: MatchAt(s, p, i)
  }

  /**
   * Python's `s.replace(pat, repl)` for a non-empty `pat`: a single left-to-right scan that replaces
   * every non-overlapping occurrence of `pat` and resumes right after each one it replaced.
   */
  function Replace(s: string, pat: string, repl: string): string
    requires |pat| > 0
    decreases |s|
  {
    if |s| < |pat| then s
    else if s[..|pat|] == pat then repl + Replace(s[|pat|..], pat, repl)
    else [s[0]] + Replace(s[1..], pat, repl)
  }

  /** The name a kept entry is stored under (eval.py:25). */
  function NewKey(k: string): string {
    Replace(k, Prefix, "")
  }

  /** Dropping the first character moves every match one place to the left. */
  lemma MatchAtTail(s: string, pat: string, i: nat)
    requires |s| > 0
    ensures MatchAt(s[1..], pat, i) <==> MatchAt(s, pat, i + 1)
  {
    if i + 1 + |pat| <= |s| {
      assert s[1..][i..i + |pat|] == s[i + 1..i + 1 + |pat|];
    }
  }

  lemma {:induction false} ReplaceWithoutMatch(s: string, pat: string, repl: string)
    requires |pat| > 0 && !Contains(s, pat)
    ensures Replace(s, pat, repl) == s
    decreases |s|
  {
    if |s| >= |pat| {
      assert !MatchAt(s, pat, 0);
      forall i: nat | i <= |s[1..]| ensures !MatchAt(s[1..], pat, i) {
        MatchAtTail(s, pat, i);
      }
      ReplaceWithoutMatch(s[1..], pat, repl);
      assert s == [s[0]] + s[1..];
    }
  }

  /** Where no occurrence starts, the scan copies the first character and moves on. */
  lemma ReplaceCopiesNonMatch(s: string, pat: string, repl: string)
    requires |pat| > 0 && |s| > 0 && !MatchAt(s, pat, 0)
    ensures Replace(s, pat, repl) == [s[0]] + Replace(s[1..], pat, repl)
  {
  }

  /** When the leftmost occurrence of `pat` in `a + pat + b` starts right after `a`, the scan copies `a`,
      replaces that occurrence and carries on with `b`. */
  lemma {:induction false} ReplaceAtFirstMatch(a: string, b: string, pat: string, repl: string)
    requires |pat| > 0
    requires forall i: nat :: i < |a| ==> !MatchAt(a + pat + b, pat, i)
    ensures Replace(a + pat + b, pat, repl) == a + repl + Replace(b, pat, repl)
    decreases |a|
  {
    if a == [] {
      assert a + pat + b == pat + b && a + repl + Replace(b, pat, repl) == repl + Replace(b, pat, repl);
      ReplaceAtStart(pat, b, repl);
    } else {
      var s, t := a + pat + b, a[1..] + pat + b;
      NoMatchInTail(a, b, pat);
      ReplaceCopiesNonMatch(s, pat, repl);
      ReplaceAtFirstMatch(a[1..], b, pat, repl);
      assert a + repl + Replace(b, pat, repl) == [a[0]] + (a[1..] + repl + Replace(b, pat, repl));
    }
  }

  /** An occurrence at the start is replaced, and the scan resumes right after it. */
  lemma ReplaceAtStart(pat: string, b: string, repl: string)
    requires |pat| > 0
    ensures Replace(pat + b, pat, repl) == repl + Replace(b, pat, repl)
  {
    var s := pat + b;
    assert s[..|pat|] == pat;
    assert s[|pat|..] == b;
  }

  /** Without the first character of `a`, still no occurrence starts inside `a`. */
  lemma NoMatchInTail(a: string, b: string, pat: string)
    requires |a| > 0 && forall i: nat :: i < |a| ==> !MatchAt(a + pat + b, pat, i)
    ensures (a + pat + b)[1..] == a[1..] + pat + b
    ensures forall i: nat :: i < |a[1..]| ==> !MatchAt(a[1..] + pat + b, pat, i)
  {
    var s, t := a + pat + b, a[1..] + pat + b;
    assert s[1..] == t;
    forall i: nat | i < |a[1..]| ensures !MatchAt(t, pat, i) {
      MatchAtTail(s, pat, i);
    }
  }

  /** Removing occurrences never lengthens a string, and shortens it whenever there is one. */
  lemma {:induction false} RemovalShrinks(s: string, pat: string)
    requires |pat| > 0
    ensures |Replace(s, pat, "")| <= |s|
    ensures Contains(s, pat) ==> |Replace(s, pat, "")| < |s|
    decreases |s|
  {
    if |s| < |pat| {
      assert !Contains(s, pat);
    } else if s[..|pat|] == pat {
      RemovalShrinks(s[|pat|..], pat);
    } else {
      RemovalShrinks(s[1..], pat);
      if Contains(s, pat) {
        var i: nat :| i <= |s| && MatchAt(s, pat, i);
        assert i != 0;
        MatchAtTail(s, pat, i - 1);
      }
    }
  }

  /** Removal leaves a string unchanged exactly when the pattern does not occur in it. */
  lemma RemovalIsIdentityIff(s: string, pat: string)
    requires |pat| > 0
    ensures Replace(s, pat, "") == s <==> !Contains(s, pat)
  {
    RemovalShrinks(s, pat);
    if !Contains(s, pat) {
      ReplaceWithoutMatch(s, pat, "");
    }
  }

  /** A key whose only occurrence of "module." is its leading one loses exactly its first 7 characters. */
  lemma LeadingPrefixOnly(k: string)
    requires StartsWith(k, Prefix) && !Contains(k[|Prefix|..], Prefix)
    ensures NewKey(k) == k[7..]
  {
    var rest := k[|Prefix|..];
    assert k == Prefix + rest;
    ReplaceAtStart(Prefix, rest, "");
    ReplaceWithoutMatch(rest, Prefix, "");
  }

  /** No occurrence can start inside a stretch that lacks the pattern's first character. */
  lemma NoMatchBefore(a: string, b: string, pat: string)
    requires |pat| > 0 && pat[0] !in a
    ensures forall i: nat :: i < |a| ==> !MatchAt(a + pat + b, pat, i)
  {
    var s := a + pat + b;
    forall i: nat | i < |a| ensures !MatchAt(s, pat, i) {
      assert s[i] == a[i] && a[i] in a;
      if i + |pat| <= |s| {
        assert s[i..i + |pat|][0] == s[i];
      }
    }
  }

  /**
   * An inner occurrence is removed as well, not only the leading one: a name nested twice under
   * "module." loses both, whatever precedes the inner one (as long as no match starts there).
   */
  lemma InnerOccurrenceRemoved(mid: string, last: string)
    requires Prefix[0] !in mid && !Contains(last, Prefix)
    ensures NewKey(Prefix + mid + Prefix + last) == mid + last
  {
    NoMatchBefore(mid, last, Prefix);
    OuterAndInnerRemoved(Prefix, mid, last);
  }

  /** Removal can splice a fresh "module." together, so a remapped name may still contain it. */
  lemma RemovalCanSplice(k: string)
    requires k == "module.modmodule.ule.w"
    ensures NewKey(k) == "module.w"
    ensures Contains(NewKey(k), Prefix)
  {
    var mid, last := "mod", "ule.w";
    assert k == Prefix + mid + Prefix + last;
    SplicedHalvesDoNotMatch(mid, last);
    OuterAndInnerRemoved(Prefix, mid, last);
    assert mid + last == "module.w";
    assert MatchAt(mid + last, Prefix, 0);
  }

  /** In "modmodule.ule.w" the first occurrence starts at index 3, and "ule.w" holds none. */
  lemma SplicedHalvesDoNotMatch(mid: string, last: string)
    requires mid == "mod" && last == "ule.w"
    ensures forall i: nat :: i < |mid| ==> !MatchAt(mid + Prefix + last, Prefix, i)
    ensures !Contains(last, Prefix)
  {
    var s := mid + Prefix + last;
    forall i: nat | i < |mid| ensures !MatchAt(s, Prefix, i) {
      assert s[i + 3] != Prefix[3];
    }
  }

  /** A leading occurrence and the next one after `mid` are both removed. */
  lemma OuterAndInnerRemoved(pat: string, mid: string, last: string)
    requires |pat| > 0 && !Contains(last, pat)
    requires forall i: nat :: i < |mid| ==> !MatchAt(mid + pat + last, pat, i)
    ensures Replace(pat + mid + pat + last, pat, "") == mid + last
  {
    var rest := mid + pat + last;
    assert pat + mid + pat + last == pat + rest;
    LeadingRemoved(pat, rest);
    InnerRemoved(pat, mid, last);
  }

  lemma EmptyGlue(a: string, b: string)
    ensures a + "" + b == a + b
  {
  }

  /** Removal drops a leading occurrence. */
  lemma LeadingRemoved(pat: string, rest: string)
    requires |pat| > 0
    ensures Replace(pat + rest, pat, "") == Replace(rest, pat, "")
  {
    ReplaceAtStart(pat, rest, "");
    assert "" + Replace(rest, pat, "") == Replace(rest, pat, "");
  }

  /** Removal drops the first occurrence after `mid`, and nothing from `last` that lacks one. */
  lemma InnerRemoved(pat: string, mid: string, last: string)
    requires |pat| > 0 && !Contains(last, pat)
    requires forall i: nat :: i < |mid| ==> !MatchAt(mid + pat + last, pat, i)
    ensures Replace(mid + pat + last, pat, "") == mid + last
  {
    var r := Replace(last, pat, "");
    ReplaceWithoutMatch(last, pat, "");
    assert r == last;
    ReplaceAtFirstMatch(mid, last, pat, "");
    EmptyGlue(mid, r);
  }

  // ---------------------------------------------------------------------------------------------
  // Python dicts as their items in insertion order

  /** A dict from parameter names to values, as its items in insertion order. */
  type Items<V> = seq<(string, V)>

  function Keys<V>(d: Items<V>): (ks: seq<string>)
    ensures |ks| == |d| && forall i :: 0 <= i < |d| ==> ks[i] == d[i].0
  {
    if d == [] then [] else [d[0].0] + Keys(d[1..])
  }

  predicate DistinctKeys<V>(d: Items<V>) {
    forall i, j :: 0 <= i < j < |d| ==> d[i].0 != d[j].0
  }

  /** `d.get(k)`. */
  function Lookup<V>(d: Items<V>, k: string): (r: Option<V>)
    ensures r.Some? <==> k in Keys(d)
    ensures r.Some? ==> (k, r.value) in d
  {
    if d == [] then None
    else if d[0].0 == k then Some(d[0].1)
    else Lookup(d[1..], k)
  }

  /**
   * `d[k] = v`: an existing key keeps its place and takes the new value; a new key goes last.
   */
  function Insert<V>(d: Items<V>, k: string, v: V): (r: Items<V>)
    ensures Keys(r) == if k in Keys(d) then Keys(d) else Keys(d) + [k]
    ensures k !in Keys(d) ==> r == d + [(k, v)]
  {
    if d == [] then [(k, v)]
    else if d[0].0 == k then [(k, v)] + d[1..]
    else [d[0]] + Insert(d[1..], k, v)
  }

  /** After `d[k] = v`, `k` maps to `v` and every other key to what it mapped to before. */
  lemma {:induction false} InsertLookup<V>(d: Items<V>, k: string, v: V, k': string)
    ensures Lookup(Insert(d, k, v), k') == if k' == k then Some(v) else Lookup(d, k')
  {
    if d != [] && d[0].0 != k {
      InsertLookup(d[1..], k, v, k');
    }
  }

  /** `d[k] = v` never introduces a duplicate name. */
  lemma {:induction false} InsertKeepsDistinct<V>(d: Items<V>, k: string, v: V)
    requires DistinctKeys(d)
    ensures DistinctKeys(Insert(d, k, v))
  {
    var r := Insert(d, k, v);
    if k !in Keys(d) {
      forall i, j | 0 <= i < j < |r| ensures r[i].0 != r[j].0 {
        if j == |d| {
          assert Keys(d)[i] == d[i].0;
        }
      }
    } else {
      assert Keys(r) == Keys(d);
      forall i, j | 0 <= i < j < |r| ensures r[i].0 != r[j].0 {
        assert Keys(r)[i] == Keys(d)[i] && Keys(r)[j] == Keys(d)[j];
      }
    }
  }

  // ---------------------------------------------------------------------------------------------
  // The remapping loop of load_model

  /** The checkpoint entry `e` is kept and written under `k`. */
  predicate Writes<V>(e: (string, V), k: string) {
    StartsWith(e.0, Prefix) && NewKey(e.0) == k
  }

  /** The new state dict after iterating over all of `cp` (eval.py:22-26). */
  function Remapped<V>(cp: Items<V>): Items<V>
  {
    if cp == [] then []
    else
      var d := Remapped(cp[..|cp| - 1]);
      var (k, v) := cp[|cp| - 1];
      if StartsWith(k, Prefix) then Insert(d, NewKey(k), v) else d
  }

  /** The kept entries, renamed, in checkpoint order, before any merging of equal names. */
  function Renamed<V>(cp: Items<V>): (r: Items<V>)
    ensures |r| <= |cp|
  {
    if cp == [] then []
    else
      var (k, v) := cp[|cp| - 1];
      Renamed(cp[..|cp| - 1]) + if StartsWith(k, Prefix) then [(NewKey(k), v)] else []
  }

  /** The loop of load_model: new_state_dict[new_key] = v for every key that starts with "module.". */
  method RemapStateDict<V>(checkpoint: Items<V>) returns (newStateDict: Items<V>)
    ensures newStateDict == Remapped(checkpoint)
  {
    newStateDict := [];
    for i := 0 to |checkpoint|
      invariant newStateDict == Remapped(checkpoint[..i])
    {
      assert checkpoint[..i + 1][..i] == checkpoint[..i];
      var (k, v) := checkpoint[i];
      if StartsWith(k, Prefix) {
        var newKey := Replace(k, Prefix, "");
        newStateDict := Insert(newStateDict, newKey, v);
      }
    }
    assert checkpoint[..|checkpoint|] == checkpoint;
  }

  /** The result never holds a name twice. */
  lemma {:induction false} RemappedDistinct<V>(cp: Items<V>)
    ensures DistinctKeys(Remapped(cp))
  {
    if cp != [] {
      var init := cp[..|cp| - 1];
      RemappedDistinct(init);
      var (k, v) := cp[|cp| - 1];
      if StartsWith(k, Prefix) {
        InsertKeepsDistinct(Remapped(init), NewKey(k), v);
      }
    }
  }

  /** A name is in the result exactly when some kept entry is renamed to it: nothing else gets in. */
  lemma {:induction false} RemappedKeys<V>(cp: Items<V>, k: string)
    ensures k in Keys(Remapped(cp)) <==> exists j :: 0 <= j < |cp| && Writes(cp[j], k)
  {
    if cp != [] {
      var n := |cp| - 1;
      var init := cp[..n];
      var d := Remapped(init);
      RemappedKeys(init, k);
      assert k in Keys(Remapped(cp)) <==> k in Keys(d) || Writes(cp[n], k);
      if k in Keys(d) {
        var j :| 0 <= j < n && Writes(init[j], k);
        assert cp[j] == init[j];
      }
      if !(k in Keys(d) || Writes(cp[n], k)) {
        forall j | 0 <= j < |cp| ensures !Writes(cp[j], k) {
          if j < n {
            assert cp[j] == init[j];
          }
        }
      }
    }
  }

  /** Entry `j` is the last kept entry of the checkpoint that is renamed to `k`. */
  predicate IsLastWrite<V>(cp: Items<V>, j: int, k: string) {
    0 <= j < |cp| && Writes(cp[j], k) && forall j' :: j < j' < |cp| ==> !Writes(cp[j'], k)
  }

  /** The value stored under `k` is the value of the LAST kept entry renamed to `k`, unchanged. */
  lemma {:induction false} RemappedLastWins<V>(cp: Items<V>, k: string, j: int)
    requires IsLastWrite(cp, j, k)
    ensures Lookup(Remapped(cp), k) == Some(cp[j].1)
  {
    var n := |cp| - 1;
    RemappedLookupStep(cp, k);
    if j < n {
      assert !Writes(cp[n], k);
      LastWriteBefore(cp, j, k);
      RemappedLastWins(cp[..n], k, j);
    }
  }

  /** The last entry of the checkpoint decides the lookup of the name it is written under. */
  lemma RemappedLookupStep<V>(cp: Items<V>, k: string)
    requires |cp| > 0
    ensures var n := |cp| - 1;
      Lookup(Remapped(cp), k) == if Writes(cp[n], k) then Some(cp[n].1) else Lookup(Remapped(cp[..n]), k)
  {
    var (kn, vn) := cp[|cp| - 1];
    if StartsWith(kn, Prefix) {
      InsertLookup(Remapped(cp[..|cp| - 1]), NewKey(kn), vn, k);
    }
  }

  /** A last write before the end of the checkpoint is a last write of the checkpoint without its end. */
  lemma LastWriteBefore<V>(cp: Items<V>, j: int, k: string)
    requires IsLastWrite(cp, j, k) && j < |cp| - 1
    ensures IsLastWrite(cp[..|cp| - 1], j, k)
  {
    var init := cp[..|cp| - 1];
    assert init[j] == cp[j];
    forall j' | j < j' < |init| ensures !Writes(init[j'], k) {
      assert init[j'] == cp[j'];
    }
  }

  /** At most one entry per kept checkpoint entry. */
  lemma {:induction false} RemappedSize<V>(cp: Items<V>)
    ensures |Remapped(cp)| <= |Renamed(cp)|
  {
    if cp != [] {
      RemappedSize(cp[..|cp| - 1]);
    }
  }

  /** When the renamed keys are all different, the result is exactly the kept entries, renamed, in order. */
  lemma {:induction false} RemappedWithoutCollisions<V>(cp: Items<V>)
    requires DistinctKeys(Renamed(cp))
    ensures Remapped(cp) == Renamed(cp)
  {
    if cp != [] {
      var n := |cp| - 1;
      var init := cp[..n];
      var before := Renamed(init);
      var (k, v) := cp[n];
      var tail: Items<V> := if StartsWith(k, Prefix) then [(NewKey(k), v)] else [];
      assert Renamed(cp) == before + tail;
      assert DistinctKeys(before) by {
        forall i, j | 0 <= i < j < |before| ensures before[i].0 != before[j].0 {
          assert before[i] == Renamed(cp)[i] && before[j] == Renamed(cp)[j];
        }
      }
      RemappedWithoutCollisions(init);
      if StartsWith(k, Prefix) {
        assert NewKey(k) !in Keys(before) by {
          forall i | 0 <= i < |before| ensures Keys(before)[i] != NewKey(k) {
            assert Renamed(cp)[i] == before[i] && Renamed(cp)[|before|] == (NewKey(k), v);
          }
        }
      }
    }
  }

  /** A checkpoint saved without DataParallel (no "module." key) yields an empty state dict. */
  lemma {:induction false} NoPrefixedKeyGivesEmpty<V>(cp: Items<V>)
    requires forall j :: 0 <= j < |cp| ==> !StartsWith(cp[j].0, Prefix)
    ensures Remapped(cp) == []
  {
    if cp != [] {
      NoPrefixedKeyGivesEmpty(cp[..|cp| - 1]);
    }
  }
}
