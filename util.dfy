/** The string utilities of util.hpp: split, unpair and join. */
module Util {

  // ---------------------------------------------------------------------
  // std::string::find and std::string::find_first_not_of on one character.
  // "Not found" (npos) is modelled as |s|.
  // ---------------------------------------------------------------------

  /** Index of the first `d` at or after `from`, or |s| when there is none. */
  function Find(s: string, d: char, from: nat): (i: nat)
    requires from <= |s|
    ensures from <= i <= |s|
    ensures forall k :: from <= k < i ==> s[k] != d
    ensures i < |s| ==> s[i] == d
    decreases |s| - from
  {
    if from == |s| || s[from] == d then from else Find(s, d, from + 1)
  }

  /** When `d` first occurs at `i`, that is what Find reports. */
  lemma FindAt(s: string, d: char, i: nat)
    requires i < |s| && s[i] == d && forall k :: 0 <= k < i ==> s[k] != d
    ensures Find(s, d, 0) == i
  {
  }

  /** Index of the first character other than `d` at or after `from`, or |s|. */
  function FindFirstNotOf(s: string, d: char, from: nat): (i: nat)
    requires from <= |s|
    ensures from <= i <= |s|
    ensures forall k :: from <= k < i ==> s[k] == d
    ensures i < |s| ==> s[i] != d
    decreases |s| - from
  {
    if from == |s| || s[from] != d then from else FindFirstNotOf(s, d, from + 1)
  }

  // ---------------------------------------------------------------------
  // split
  // ---------------------------------------------------------------------

  /** The longest prefix of `s` that holds no `d`. */
  function Run(s: string, d: char): (r: string)
    ensures r <= s
    ensures d !in r
    ensures |r| < |s| ==> s[|r|] == d
    ensures s != [] && s[0] != d ==> r != []
  {
    if s == [] || s[0] == d then [] else [s[0]] + Run(s[1..], d)
  }

  /** The maximal runs of non-`d` characters of `s`, left to right. */
  function Runs(s: string, d: char): (r: seq<string>)
    ensures forall k :: 0 <= k < |r| ==> r[k] != [] && d !in r[k]
    decreases |s|
  {
    if s == [] then []
    else if s[0] == d then Runs(s[1..], d)
    else
      var w := Run(s, d);
      [w] + Runs(s[|w|..], d)
  }

  /** `s` with every `d` removed. */
  function Remove(s: string, d: char): string
  {
    if s == [] then [] else (if s[0] == d then [] else [s[0]]) + Remove(s[1..], d)
  }

  /** All strings of `items` concatenated. */
  function Flatten(items: seq<string>): string
  {
    if items == [] then [] else items[0] + Flatten(items[1..])
  }

  predicate AllEqual(s: string, d: char)
  {
    forall k :: 0 <= k < |s| ==> s[k] == d
  }

  /**
   * util::split: repeatedly skip the delimiters, then take everything up to
   * the next delimiter.
   */
  method Split(str: string, delim: char) returns (strings: seq<string>)
    ensures strings == Runs(str, delim)
  {
    strings := [];
    var end := 0;
    var start := FindFirstNotOf(str, delim, end);
    RunsSkip(str, delim, end, start);
    while start < |str|
      invariant end <= start <= |str|
      invariant start < |str| ==> str[start] != delim
      invariant strings + Runs(str[start..], delim) == Runs(str, delim)
      decreases |str| - start
    {
      end := Find(str, delim, start);
      RunsStep(str, delim, start, end);
      strings := strings + [str[start..end]];
      start := FindFirstNotOf(str, delim, end);
      RunsSkip(str, delim, end, start);
    }
  }

  lemma {:induction false} RunOfWord(w: string, t: string, d: char)
    requires d !in w
    requires t == [] || t[0] == d
    ensures Run(w + t, d) == w
  {
    if w != [] {
      assert (w + t)[1..] == w[1..] + t;
      RunOfWord(w[1..], t, d);
    } else {
      assert w + t == t;
    }
  }

  /** Leading delimiters do not change the runs. */
  lemma {:induction false} RunsSkip(s: string, d: char, i: nat, j: nat)
    requires i <= j <= |s|
    requires forall k :: i <= k < j ==> s[k] == d
    ensures Runs(s[i..], d) == Runs(s[j..], d)
    decreases j - i
  {
    if i < j {
      assert s[i..][1..] == s[i + 1..];
      RunsSkip(s, d, i + 1, j);
    }
  }

  /** From a non-delimiter, the next run reaches up to the next delimiter. */
  lemma RunsStep(s: string, d: char, start: nat, end: nat)
    requires start < |s| && s[start] != d
    requires end == Find(s, d, start)
    ensures Runs(s[start..], d) == [s[start..end]] + Runs(s[end..], d)
  {
    var w, t := s[start..end], s[end..];
    assert s[start..] == w + t;
    assert d !in w by {
      forall k | 0 <= k < |w| ensures w[k] != d { assert w[k] == s[start + k]; }
    }
    RunOfWord(w, t, d);
    assert s[start..][|w|..] == t;
  }

  /** Concatenating the runs gives `s` with every delimiter removed. */
  lemma {:induction false} RunsFlatten(s: string, d: char)
    ensures Flatten(Runs(s, d)) == Remove(s, d)
    decreases |s|
  {
    if s == [] {
    } else if s[0] == d {
      RunsFlatten(s[1..], d);
    } else {
      var w := Run(s, d);
      var t := s[|w|..];
      assert s == w + t;
      RunsFlatten(t, d);
      RemoveAppend(w, t, d);
      RemoveNone(w, d);
      assert Runs(s, d) == [w] + Runs(t, d);
      assert ([w] + Runs(t, d))[1..] == Runs(t, d);
    }
  }

  lemma {:induction false} RemoveAppend(a: string, b: string, d: char)
    ensures Remove(a + b, d) == Remove(a, d) + Remove(b, d)
  {
    if a != [] {
      assert (a + b)[1..] == a[1..] + b;
      RemoveAppend(a[1..], b, d);
    } else {
      assert a + b == b;
    }
  }

  lemma {:induction false} RemoveNone(w: string, d: char)
    requires d !in w
    ensures Remove(w, d) == w
  {
    if w != [] {
      RemoveNone(w[1..], d);
    }
  }

  /** The vector is empty exactly when `s` is empty or consists of delimiters only. */
  lemma {:induction false} RunsEmpty(s: string, d: char)
    ensures Runs(s, d) == [] <==> AllEqual(s, d)
    decreases |s|
  {
    if s != [] && s[0] == d {
      RunsEmpty(s[1..], d);
      if AllEqual(s[1..], d) {
        forall k | 0 <= k < |s| ensures s[k] == d {
          if k > 0 { assert s[k] == s[1..][k - 1]; }
        }
      }
    }
  }

  /** A word followed by a delimiter (or nothing) is the first run. */
  lemma RunsWordThen(w: string, v: string, d: char)
    requires w != [] && d !in w
    requires v == [] || v[0] == d
    ensures Runs(w + v, d) == [w] + Runs(v, d)
  {
    RunOfWord(w, v, d);
    assert (w + v)[0] == w[0];
    assert (w + v)[|w|..] == v;
  }

  /** A string with no delimiter in it is its own single run. */
  lemma RunsOfWord(w: string, d: char)
    requires w != [] && d !in w
    ensures Runs(w, d) == [w]
  {
    RunOfWord(w, [], d);
    assert w + [] == w;
  }

  /** Splitting distributes over a delimiter: the runs left of it, then the runs right of it. */
  lemma {:induction false} RunsAppendDelim(s: string, t: string, d: char)
    ensures Runs(s + [d] + t, d) == Runs(s, d) + Runs(t, d)
    decreases |s|
  {
    var u := s + [d] + t;
    if s == [] {
      assert u[1..] == t;
    } else if s[0] == d {
      assert u[1..] == s[1..] + [d] + t;
      RunsAppendDelim(s[1..], t, d);
    } else {
      var w := Run(s, d);
      var rest := s[|w|..];
      assert s == w + rest;
      assert u == w + (rest + [d] + t);
      RunsWordThen(w, rest, d);
      RunsWordThen(w, rest + [d] + t, d);
      RunsAppendDelim(rest, t, d);
    }
  }

  // ---------------------------------------------------------------------
  // join
  // ---------------------------------------------------------------------

  /** The items with exactly one `sep` between neighbours. */
  function Joined(items: seq<string>, sep: string): string
  {
    if items == [] then []
    else if |items| == 1 then items[0]
    else items[0] + sep + Joined(items[1..], sep)
  }

  /**
   * util::join: write the first item, then separator and item for each
   * remaining one.
   */
  method Join(input: seq<string>, separator: string) returns (result: string)
    ensures result == Joined(input, separator)
    ensures input == [] ==> result == []
    ensures |input| == 1 ==> result == input[0]
  {
    result := [];
    var i := 0;
    if i < |input| {
      result := result + input[i];
      i := i + 1;
    }
    while i < |input|
      invariant input != [] ==> 1 <= i
      invariant i <= |input|
      invariant result == Joined(input[..i], separator)
    {
      JoinedSnoc(input[..i], input[i], separator);
      assert input[..i + 1] == input[..i] + [input[i]];
      result := result + separator + input[i];
      i := i + 1;
    }
    assert input[..i] == input;
  }

  /** Joining a head and a non-empty rest puts one separator between them. */
  lemma JoinedCons(x: string, rest: seq<string>, sep: string)
    requires rest != []
    ensures Joined([x] + rest, sep) == x + sep + Joined(rest, sep)
  {
    assert ([x] + rest)[1..] == rest;
  }

  /** Appending an item adds one separator and the item at the end. */
  lemma {:induction false} JoinedSnoc(items: seq<string>, x: string, sep: string)
    requires items != []
    ensures Joined(items + [x], sep) == Joined(items, sep) + sep + x
    decreases |items|
  {
    if |items| == 1 {
      assert items + [x] == [items[0], x];
      assert [items[0], x][1..] == [x];
    } else {
      assert (items + [x])[1..] == items[1..] + [x];
      JoinedSnoc(items[1..], x, sep);
    }
  }

  function TotalLength(items: seq<string>): nat
  {
    if items == [] then 0 else |items[0]| + TotalLength(items[1..])
  }

  /** The joined length: all items plus one separator per gap. */
  lemma {:induction false} JoinedLength(items: seq<string>, sep: string)
    requires items != []
    ensures |Joined(items, sep)| == TotalLength(items) + (|items| - 1) * |sep|
    decreases |items|
  {
    if |items| > 1 {
      JoinedLength(items[1..], sep);
      assert (|items| - 1) * |sep| == (|items[1..]| - 1) * |sep| + |sep|;
    }
  }

  predicate NoAdjacent(s: string, d: char)
  {
    forall k :: 0 <= k < |s| - 1 ==> !(s[k] == d && s[k + 1] == d)
  }

  /**
   * Joining the pieces of a split with the same delimiter restores the text,
   * provided it is non-empty and has no leading, trailing or doubled delimiter.
   */
  lemma {:induction false} JoinSplitRoundTrip(s: string, d: char)
    requires s != [] && s[0] != d && s[|s| - 1] != d
    requires NoAdjacent(s, d)
    ensures Joined(Runs(s, d), [d]) == s
    decreases |s|
  {
    var i := Find(s, d, 0);
    if i == |s| {
      RunsOfWord(s, d);
    } else {
      var a, t := s[..i], s[i + 1..];
      assert s == a + [d] + t;
      assert a != [] && d !in a;
      assert t != [];
      assert t[0] != d by { assert s[i] == d && t[0] == s[i + 1]; }
      assert NoAdjacent(t, d) by {
        forall k | 0 <= k < |t| - 1 ensures !(t[k] == d && t[k + 1] == d) {
          assert t[k] == s[i + 1 + k] && t[k + 1] == s[i + 1 + k + 1];
        }
      }
      RunsAppendDelim(a, t, d);
      RunsOfWord(a, d);
      JoinSplitRoundTrip(t, d);
      var rt := Runs(t, d);
      assert rt != [] by { RunsEmpty(t, d); }
      assert Runs(s, d) == [a] + rt;
      assert ([a] + rt)[1..] == rt;
    }
  }

  // ---------------------------------------------------------------------
  // unpair
  // ---------------------------------------------------------------------

  /**
   * What unpair demands: when the delimiter occurs, the text after its first
   * occurrence holds something other than a space (otherwise its
   * space-erasing loop reads past the end).
   */
  predicate UnpairDefined(s: string, d: char)
  {
    var i := Find(s, d, 0);
    i < |s| ==> FindFirstNotOf(s, ' ', i + 1) < |s|
  }

  /**
   * util::unpair as written: with `i` the first index of `d`, the first
   * component is the prefix of length |s| - i (not i), the second is the
   * text after `d` from its first non-space on; two empty strings when `d`
   * does not occur.
   */
  function Unpaired(s: string, d: char): (p: (string, string))
    requires UnpairDefined(s, d)
  {
    var i := Find(s, d, 0);
    if i == |s| then ([], []) else (s[..|s| - i], s[FindFirstNotOf(s, ' ', i + 1)..])
  }

  /** Both components are empty when the delimiter is missing. */
  lemma UnpairedMissing(s: string, d: char)
    requires d !in s
    ensures UnpairDefined(s, d) && Unpaired(s, d) == ([], [])
  {
    assert Find(s, d, 0) == |s|;
  }

  /**
   * With `d` first at `i` and something other than spaces after it: the
   * first component is the prefix of length |s| - i; the text after `d` is
   * some spaces followed by the second component, which is non-empty and
   * does not start with a space.
   */
  lemma UnpairedFound(s: string, d: char, i: nat)
    requires i < |s| && s[i] == d && forall k :: 0 <= k < i ==> s[k] != d
    requires !AllEqual(s[i + 1..], ' ')
    ensures UnpairDefined(s, d)
    ensures Unpaired(s, d).0 == s[..|s| - i]
    ensures var second := Unpaired(s, d).1;
      && second != [] && second[0] != ' '
      && i + 1 + |second| <= |s| && s[|s| - |second|..] == second
      && forall k :: i < k < |s| - |second| ==> s[k] == ' '
  {
    FindAt(s, d, i);
    var k :| 0 <= k < |s| - i - 1 && s[i + 1..][k] != ' ';
    assert s[i + 1 + k] != ' ';
  }

  /** util::unpair, with its loop that erases leading spaces one at a time. */
  method Unpair(str: string, delim: char) returns (first: string, second: string)
    requires UnpairDefined(str, delim)
    ensures (first, second) == Unpaired(str, delim)
  {
    first, second := [], [];
    var index := Find(str, delim, 0);
    if index < |str| {
      first, second := str[..|str| - index], str[index + 1..];
      ghost var start := FindFirstNotOf(str, ' ', index + 1);
      ghost var erased := index + 1;
      while second[0] == ' '
        invariant index + 1 <= erased <= start && second == str[erased..]
        decreases |second|
      {
        second := second[1..];
        erased := erased + 1;
      }
    }
  }

  /**
   * The evidently intended unpair: the first component is the text before
   * the delimiter.
   */
  function UnpairedIntended(s: string, d: char): (p: (string, string))
    requires UnpairDefined(s, d)
  {
    var i := Find(s, d, 0);
    if i == |s| then ([], []) else (s[..i], s[FindFirstNotOf(s, ' ', i + 1)..])
  }

  /**
   * The intended unpair gives the text back: the first component, then the
   * delimiter (its first occurrence), then spaces only, then the second
   * component.
   */
  lemma UnpairedIntendedRestores(s: string, d: char)
    requires d in s && UnpairDefined(s, d)
    ensures var first := UnpairedIntended(s, d).0;
      && d !in first && |first| < |s| && s[..|first|] == first && s[|first|] == d
    ensures var (n, second) := (|UnpairedIntended(s, d).0|, UnpairedIntended(s, d).1);
      && n + 1 + |second| <= |s| && s[|s| - |second|..] == second
      && forall k :: n < k < |s| - |second| ==> s[k] == ' '
  {
    var i := Find(s, d, 0);
    var j := FindFirstNotOf(s, ' ', i + 1);
    assert UnpairedIntended(s, d) == (s[..i], s[j..]);
  }

  /**
   * As written, unpair turns the credentials "u:pw" into the user name
   * "u:p": the first component has length |s| - i = 3, not i = 1.
   */
  lemma UnpairedTruncatesKey()
    ensures UnpairDefined("u:pw", ':')
    ensures Unpaired("u:pw", ':').0 == "u:p"
    ensures UnpairedIntended("u:pw", ':').0 == "u"
  {
    FindAt("u:pw", ':', 1);
    assert FindFirstNotOf("u:pw", ' ', 2) == 2;
  }
}
