/** The string helpers the matchers use to label a signal: `list_to_string`
    and the removal of the "/USDT" quote currency from the pair name. */
module Text {

  /** `list_to_string`: the elements concatenated with no separator. */
  function Join(parts: seq<string>): (s: string)
  {
    if parts == [] then "" else parts[0] + Join(parts[1..])
  }

  lemma {:induction false} JoinLength(parts: seq<string>)
    ensures |Join(parts)| == TotalLength(parts)
  {
    if parts != [] {
      JoinLength(parts[1..]);
    }
  }

  function TotalLength(parts: seq<string>): nat
  {
    if parts == [] then 0 else |parts[0]| + TotalLength(parts[1..])
  }

  /** Joining two lists is joining each and concatenating the results. */
  lemma {:induction false} JoinAppend(a: seq<string>, b: seq<string>)
    ensures Join(a + b) == Join(a) + Join(b)
  {
    if a == [] {
      assert a + b == b;
    } else {
      assert (a + b)[1..] == a[1..] + b;
      JoinAppend(a[1..], b);
    }
  }

  lemma JoinSingleton(s: string)
    ensures Join([s]) == s
  {
    assert [s][1..] == [];
  }

  /** `pat` occurs in `s` at position `i`. */
  predicate OccursAt(s: string, pat: string, i: int)
  {
    0 <= i && i + |pat| <= |s| && s[i..i + |pat|] == pat
  }

  /** `s.replace(pat, "")`: scanning left to right, every non-overlapping
      occurrence of `pat` is deleted. */
  function RemoveAll(s: string, pat: string): (r: string)
    requires pat != []
    ensures |r| <= |s|
    decreases |s|
  {
    if |s| < |pat| then s
    else if s[..|pat|] == pat then RemoveAll(s[|pat|..], pat)
    else [s[0]] + RemoveAll(s[1..], pat)
  }

  /** A string without any occurrence of `pat` is returned unchanged. */
  lemma {:induction false} RemoveAllNoOccurrence(s: string, pat: string)
    requires pat != []
    requires forall i :: !OccursAt(s, pat, i)
    ensures RemoveAll(s, pat) == s
    decreases |s|
  {
    if |s| >= |pat| {
      assert !OccursAt(s, pat, 0);
      assert s[0..|pat|] == s[..|pat|];
      forall i ensures !OccursAt(s[1..], pat, i) {
        if OccursAt(s[1..], pat, i) {
          assert s[1..][i..i + |pat|] == s[i + 1..i + 1 + |pat|];
          assert OccursAt(s, pat, i + 1);
        }
      }
      RemoveAllNoOccurrence(s[1..], pat);
      assert [s[0]] + s[1..] == s;
    }
  }

  /** A prefix that cannot start an occurrence of `pat` is kept as it is and
      the scan resumes after it. */
  lemma {:induction false} RemoveAllKeepsPrefix(s: string, t: string, pat: string)
    requires pat != []
    requires pat[0] !in s
    ensures RemoveAll(s + t, pat) == s + RemoveAll(t, pat)
    decreases |s|
  {
    if s == [] {
      assert s + t == t;
    } else {
      var st := s + t;
      if |st| < |pat| {
        // too short for an occurrence; so is the suffix t
        assert RemoveAll(st, pat) == st;
        assert RemoveAll(t, pat) == t;
      } else {
        assert st[0] == s[0] != pat[0];
        assert st[..|pat|] != pat;
        assert st[1..] == s[1..] + t;
        RemoveAllKeepsPrefix(s[1..], t, pat);
        calc {
          RemoveAll(st, pat);
          [st[0]] + RemoveAll(st[1..], pat);
          [s[0]] + (s[1..] + RemoveAll(t, pat));
          ([s[0]] + s[1..]) + RemoveAll(t, pat);
          { assert [s[0]] + s[1..] == s; }
          s + RemoveAll(t, pat);
        }
      }
    }
  }

  lemma RemoveAllWhole(pat: string)
    requires pat != []
    ensures RemoveAll(pat, pat) == ""
  {
    assert pat[..|pat|] == pat;
    assert pat[|pat|..] == "";
  }

  const Quote: string := "/USDT"

  /** The pair label with the quote currency removed, as the matchers report
      it: `list_to_string(symbol).replace("/USDT", "")`. */
  function PairName(symbol: seq<string>): string
  {
    RemoveAll(Join(symbol), Quote)
  }

  /** A pair "BASE/USDT" whose base contains no '/' is reported as BASE. */
  lemma PairNameStripsQuote(base: string)
    requires '/' !in base
    ensures PairName([base + Quote]) == base
  {
    JoinSingleton(base + Quote);
    RemoveAllKeepsPrefix(base, Quote, Quote);
    RemoveAllWhole(Quote);
    assert base + "" == base;
  }
}
