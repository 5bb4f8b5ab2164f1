/** The version suffix appended to launch-configuration names: the
    template's `Mappings.DockerForAWS.version.forAws` string with its dots
    and dashes removed. */
module Version {

  /** `s.replace(/c/g, '')` for a one-character pattern `c`. */
  function RemoveAll(s: string, c: char): (r: string)
    ensures c !in r
    ensures |r| <= |s|
  {
    if |s| == 0 then ""
    else (if s[0] == c then "" else [s[0]]) + RemoveAll(s[1..], c)
  }

  /** `forAws.replace(/\./g,'').replace(/-/g,'')`, the two passes in the
      order the constructor applies them. */
  function Suffix(forAws: string): (r: string)
    ensures '.' !in r && '-' !in r
    ensures |r| <= |forAws|
  {
    var withoutDots := RemoveAll(forAws, '.');
    RemoveAllKeepsAbsent(withoutDots, '-', '.');
    RemoveAll(withoutDots, '-')
  }

  /** Removing one character never introduces another. */
  lemma {:induction false} RemoveAllKeepsAbsent(s: string, c: char, d: char)
    requires d !in s
    ensures d !in RemoveAll(s, c)
    decreases |s|
  {
    if |s| > 0 {
      assert d !in s[1..];
      RemoveAllKeepsAbsent(s[1..], c, d);
    }
  }

  predicate IsSeparator(c: char) {
    c == '.' || c == '-'
  }

  /** Removing a character that does not occur changes nothing. */
  lemma {:induction false} RemoveAllAbsent(s: string, c: char)
    requires c !in s
    ensures RemoveAll(s, c) == s
    decreases |s|
  {
    if |s| > 0 {
      assert c !in s[1..];
      RemoveAllAbsent(s[1..], c);
      assert [s[0]] + s[1..] == s;
    }
  }

  /** A version string without dots and dashes is its own suffix; in
      particular taking the suffix twice changes nothing more. */
  lemma SuffixWithoutSeparators(s: string)
    requires '.' !in s && '-' !in s
    ensures Suffix(s) == s
    ensures Suffix(Suffix(s)) == Suffix(s)
  {
    RemoveAllAbsent(s, '.');
    RemoveAllAbsent(s, '-');
  }

  /** Reference definition: one left-to-right pass keeping exactly the
      characters that are not separators. */
  function KeepNonSeparators(s: string): string {
    if |s| == 0 then ""
    else if IsSeparator(s[0]) then KeepNonSeparators(s[1..])
    else [s[0]] + KeepNonSeparators(s[1..])
  }

  lemma {:induction false} RemoveAllAppend(a: string, b: string, c: char)
    ensures RemoveAll(a + b, c) == RemoveAll(a, c) + RemoveAll(b, c)
    decreases |a|
  {
    if |a| == 0 {
      assert a + b == b;
    } else {
      var head := if a[0] == c then "" else [a[0]];
      assert (a + b)[0] == a[0];
      assert (a + b)[1..] == a[1..] + b;
      assert RemoveAll(a + b, c) == head + RemoveAll(a[1..] + b, c);
      RemoveAllAppend(a[1..], b, c);
      assert head + (RemoveAll(a[1..], c) + RemoveAll(b, c))
             == (head + RemoveAll(a[1..], c)) + RemoveAll(b, c);
    }
  }

  /** The two removal passes keep the non-separator characters, in order,
      and nothing else. */
  lemma {:induction false} SuffixKeepsOthersInOrder(s: string)
    ensures Suffix(s) == KeepNonSeparators(s)
    decreases |s|
  {
    if |s| > 0 {
      var head := if s[0] == '.' then "" else [s[0]];
      assert RemoveAll(s, '.') == head + RemoveAll(s[1..], '.');
      RemoveAllAppend(head, RemoveAll(s[1..], '.'), '-');
      SuffixKeepsOthersInOrder(s[1..]);
    }
  }

  /** Counted per character: every separator is gone and every other
      character occurs as often as in the version string. */
  lemma {:induction false} SuffixCounts(s: string, c: char)
    ensures multiset(Suffix(s))[c] == if IsSeparator(c) then 0 else multiset(s)[c]
    decreases |s|
  {
    SuffixKeepsOthersInOrder(s);
    KeepCounts(s, c);
  }

  lemma {:induction false} KeepCounts(s: string, c: char)
    ensures multiset(KeepNonSeparators(s))[c] == if IsSeparator(c) then 0 else multiset(s)[c]
    decreases |s|
  {
    if |s| > 0 {
      assert s == [s[0]] + s[1..];
      KeepCounts(s[1..], c);
      if !IsSeparator(s[0]) {
        assert KeepNonSeparators(s) == [s[0]] + KeepNonSeparators(s[1..]);
      }
    }
  }

  /** The suffix of a concatenation is the concatenation of the suffixes. */
  lemma SuffixAppend(a: string, b: string)
    ensures Suffix(a + b) == Suffix(a) + Suffix(b)
  {
    RemoveAllAppend(a, b, '.');
    RemoveAllAppend(RemoveAll(a, '.'), RemoveAll(b, '.'), '-');
  }

  lemma {:induction false} KeepAppend(a: string, b: string)
    ensures KeepNonSeparators(a + b) == KeepNonSeparators(a) + KeepNonSeparators(b)
    decreases |a|
  {
    if |a| == 0 {
      assert a + b == b;
    } else {
      assert (a + b)[1..] == a[1..] + b;
      KeepAppend(a[1..], b);
    }
  }

  lemma ExampleHead()
    ensures KeepNonSeparators("17.05.") == "1705"
  {
  }

  lemma ExampleTail()
    ensures KeepNonSeparators("0-ce") == "0ce"
  {
  }

  lemma ExampleKept()
    ensures KeepNonSeparators("17.05.0-ce") == "17050ce"
  {
    ExampleHead();
    ExampleTail();
    KeepAppend("17.05.", "0-ce");
    assert "17.05." + "0-ce" == "17.05.0-ce";
  }

  /** The release string of Docker 17.05.0-ce gives the suffix `17050ce`. */
  lemma SuffixExample()
    ensures Suffix("17.05.0-ce") == "17050ce"
  {
    ExampleKept();
    SuffixKeepsOthersInOrder("17.05.0-ce");
  }
}
