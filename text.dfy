/**
 * The string operations of Python's `str` that the vCard parser relies on:
 * `sep.join(parts)`, `s.split(sep, 1)` for a one-character separator, the
 * truthiness filter `[p for p in parts if p]` and `s.lower()` (ASCII only).
 */
module Text {
  import opened Wrappers

  /** Python's `sep.join(parts)`. */
  function Join(parts: seq<string>, sep: string): (r: string)
    ensures parts == [] ==> r == ""
    ensures |parts| == 1 ==> r == parts[0]
    decreases |parts|
  {
    if |parts| == 0 then ""
    else if |parts| == 1 then parts[0]
    else parts[0] + sep + Join(parts[1..], sep)
  }

  /** The summed length of all parts. */
  function TotalLength(parts: seq<string>): nat
  {
    if parts == [] then 0 else |parts[0]| + TotalLength(parts[1..])
  }

  /** A joined string is as long as its parts plus one separator between each two neighbours. */
  lemma {:induction false} JoinLength(parts: seq<string>, sep: string)
    requires parts != []
    ensures |Join(parts, sep)| == TotalLength(parts) + (|parts| - 1) * |sep|
  {
    if |parts| > 1 {
      JoinLength(parts[1..], sep);
    }
  }

  /** A joined string begins with the first part and ends with the last one: no separator is put at either end. */
  lemma {:induction false} JoinEnds(parts: seq<string>, sep: string)
    requires parts != []
    ensures |parts[0]| <= |Join(parts, sep)|
    ensures Join(parts, sep)[..|parts[0]|] == parts[0]
    ensures |parts[|parts| - 1]| <= |Join(parts, sep)|
    ensures Join(parts, sep)[|Join(parts, sep)| - |parts[|parts| - 1]|..] == parts[|parts| - 1]
  {
    if |parts| > 1 {
      JoinEnds(parts[1..], sep);
      var rest := Join(parts[1..], sep);
      var whole := parts[0] + sep + rest;
      assert whole[..|parts[0]|] == parts[0];
      assert whole[|whole| - |rest|..] == rest;
      assert whole[|whole| - |parts[|parts| - 1]|..] == rest[|rest| - |parts[|parts| - 1]|..];
    }
  }

  /** Joining parts that are all non-empty gives the empty string exactly when there are no parts. */
  lemma {:induction false} JoinEmptyIff(parts: seq<string>, sep: string)
    requires forall i :: 0 <= i < |parts| ==> parts[i] != ""
    ensures Join(parts, sep) == "" <==> parts == []
  {
    if parts != [] {
      JoinEnds(parts, sep);
    }
  }

  /** Python's `[p for p in parts if p]`: the non-empty parts, in their order. */
  function NonEmpty(parts: seq<string>): (kept: seq<string>)
    ensures |kept| <= |parts|
    ensures forall i :: 0 <= i < |kept| ==> kept[i] != ""
  {
    if parts == [] then []
    else if parts[0] == "" then NonEmpty(parts[1..])
    else [parts[0]] + NonEmpty(parts[1..])
  }

  /** The filter keeps exactly the non-empty parts: nothing is lost and nothing is made up. */
  lemma {:induction false} NonEmptyMembers(parts: seq<string>)
    ensures forall p :: p in NonEmpty(parts) <==> p in parts && p != ""
  {
    if parts != [] {
      NonEmptyMembers(parts[1..]);
      assert parts == [parts[0]] + parts[1..];
    }
  }

  /** Filtering parts that are all non-empty keeps them all. */
  lemma {:induction false} NonEmptyKeepsAll(parts: seq<string>)
    requires forall i :: 0 <= i < |parts| ==> parts[i] != ""
    ensures NonEmpty(parts) == parts
  {
    if parts != [] {
      NonEmptyKeepsAll(parts[1..]);
      assert [parts[0]] + parts[1..] == parts;
    }
  }

  /** The filter distributes over concatenation, so it keeps the order and the repeats of the parts it keeps. */
  lemma {:induction false} NonEmptyConcat(a: seq<string>, b: seq<string>)
    ensures NonEmpty(a + b) == NonEmpty(a) + NonEmpty(b)
    decreases |a|
  {
    if a != [] {
      NonEmptyConcat(a[1..], b);
      assert (a + b)[1..] == a[1..] + b;
      assert (a + b)[0] == a[0];
    } else {
      assert a + b == b;
    }
  }

  /**
   * An independent way of building a gap-free list: append each non-empty part,
   * preceded by the separator only when something is already there.
   */
  function AppendSkippingEmpty(acc: string, parts: seq<string>, sep: string): string
    decreases |parts|
  {
    if parts == [] then acc
    else if parts[0] == "" then AppendSkippingEmpty(acc, parts[1..], sep)
    else if acc == "" then AppendSkippingEmpty(parts[0], parts[1..], sep)
    else AppendSkippingEmpty(acc + sep + parts[0], parts[1..], sep)
  }

  lemma {:induction false} AppendSkippingEmptyAcc(acc: string, parts: seq<string>, sep: string)
    requires acc != ""
    ensures AppendSkippingEmpty(acc, parts, sep)
         == if NonEmpty(parts) == [] then acc else acc + sep + Join(NonEmpty(parts), sep)
    decreases |parts|
  {
    if parts == [] {
    } else if parts[0] == "" {
      AppendSkippingEmptyAcc(acc, parts[1..], sep);
    } else {
      var rest := NonEmpty(parts[1..]);
      AppendSkippingEmptyAcc(acc + sep + parts[0], parts[1..], sep);
      assert NonEmpty(parts) == [parts[0]] + rest;
      if rest != [] {
        assert ([parts[0]] + rest)[1..] == rest;
        assert acc + sep + parts[0] + sep + Join(rest, sep) == acc + sep + (parts[0] + sep + Join(rest, sep));
      }
    }
  }

  /** Joining the non-empty parts is the same as appending them one by one with a separator between neighbours. */
  lemma {:induction false} JoinNonEmptyIsAppendSkippingEmpty(parts: seq<string>, sep: string)
    ensures Join(NonEmpty(parts), sep) == AppendSkippingEmpty("", parts, sep)
    decreases |parts|
  {
    if parts == [] {
    } else if parts[0] == "" {
      JoinNonEmptyIsAppendSkippingEmpty(parts[1..], sep);
    } else {
      AppendSkippingEmptyAcc(parts[0], parts[1..], sep);
      var rest := NonEmpty(parts[1..]);
      assert NonEmpty(parts) == [parts[0]] + rest;
      if rest != [] {
        assert ([parts[0]] + rest)[1..] == rest;
      }
    }
  }

  /** The position of the first occurrence of `c` in `s`, if any. */
  function FirstIndexOf(s: string, c: char): (r: Option<nat>)
    ensures r.Some? ==> r.value < |s| && s[r.value] == c && c !in s[..r.value]
    ensures r.None? <==> c !in s
  {
    if s == [] then None
    else if s[0] == c then Some(0)
    else
      match FirstIndexOf(s[1..], c)
      case None => None
      case Some(i) => assert s[..i + 1] == [s[0]] + s[1..][..i]; Some(i + 1)
  }

  /**
   * Python's `s.split(sep, 1)` for a one-character separator: the text before the
   * first separator and the rest, or the whole string when there is no separator.
   */
  function SplitOnce(s: string, c: char): (parts: seq<string>)
    ensures |parts| == if c in s then 2 else 1
    ensures c !in parts[0]
    ensures Join(parts, [c]) == s
  {
    match FirstIndexOf(s, c)
    case None => [s]
    case Some(i) =>
      assert s == s[..i] + [c] + s[i + 1..];
      [s[..i], s[i + 1..]]
  }

  /** Splitting `a + [c] + b` at the first `c` gives back `a` and `b` when `a` has no `c`. */
  lemma SplitOnceOfJoin(a: string, b: string, c: char)
    requires c !in a
    ensures SplitOnce(a + [c] + b, c) == [a, b]
  {
    var s := a + [c] + b;
    assert s[|a|] == c;
    forall k | 0 <= k < |a|
      ensures s[k] != c
    {
      assert s[k] == a[k];
    }
    forall j | |a| < j <= |s|
      ensures c in s[..j]
    {
      assert s[..j][|a|] == c;
    }
    assert FirstIndexOf(s, c) == Some(|a|);
    assert s[..|a|] == a;
    assert s[|a| + 1..] == b;
  }

  /** Python's `str.lower()` on one character, restricted to the ASCII letters. */
  function LowerChar(c: char): char
  {
    if 'A' <= c <= 'Z' then (c as int - 'A' as int + 'a' as int) as char else c
  }

  predicate IsUpper(c: char)
  {
    'A' <= c <= 'Z'
  }

  /** Python's `s.lower()`, ASCII letters only. */
  function Lower(s: string): (r: string)
    ensures |r| == |s|
    ensures forall i :: 0 <= i < |r| ==> !IsUpper(r[i])
    ensures forall i :: 0 <= i < |s| && !IsUpper(s[i]) ==> r[i] == s[i]
  {
    seq(|s|, i requires 0 <= i < |s| => LowerChar(s[i]))
  }

  /** Every string lower-cased. */
  function LowerAll(ss: seq<string>): (r: seq<string>)
    ensures |r| == |ss|
  {
    seq(|ss|, i requires 0 <= i < |ss| => Lower(ss[i]))
  }

  lemma LowerConcat(a: string, b: string)
    ensures Lower(a + b) == Lower(a) + Lower(b)
  {
    assert forall i :: 0 <= i < |a + b| ==> Lower(a + b)[i] == (Lower(a) + Lower(b))[i];
  }

  /** Lower-casing a joined string lower-cases each part, when the separator has no upper-case letter. */
  lemma {:induction false} LowerJoin(parts: seq<string>, sep: string)
    requires Lower(sep) == sep
    ensures Lower(Join(parts, sep)) == Join(LowerAll(parts), sep)
    decreases |parts|
  {
    if |parts| > 1 {
      LowerJoin(parts[1..], sep);
      assert LowerAll(parts)[1..] == LowerAll(parts[1..]);
      LowerConcat(parts[0] + sep, Join(parts[1..], sep));
      LowerConcat(parts[0], sep);
    }
  }
}
