/** The JavaScript built-ins the envelopes' renderers rely on: string length
    in UTF-16 code units, `String.prototype.padEnd`, and the plain `Error`
    object. Strings here are sequences of Unicode scalar values, so a
    character outside the Basic Multilingual Plane is two code units long. */
module Builtins {

  /** Width every envelope renderer pads the tag column to (`padEnd(12)`). */
  const TagWidth: nat := 12

  function Max(a: int, b: int): int {
    if a < b then b else a
  }

  /** Number of UTF-16 code units JavaScript stores for `c`. */
  function CodeUnits(c: char): nat {
    if c as int >= 0x1_0000 then 2 else 1
  }

  /** The JavaScript `length` of `s`, counted in UTF-16 code units. */
  function Utf16Length(s: string): (n: nat)
    ensures |s| <= n <= 2 * |s|
  {
    if s == [] then 0 else CodeUnits(s[0]) + Utf16Length(s[1..])
  }

  /** Every character of `s` is a space (U+0020). */
  ghost predicate AllSpaces(s: string) {
    forall i :: 0 <= i < |s| ==> s[i] == ' '
  }

  /** Every character of `s` is one UTF-16 code unit long. */
  ghost predicate InBmp(s: string) {
    forall i :: 0 <= i < |s| ==> s[i] as int < 0x1_0000
  }

  function Spaces(n: nat): (r: string)
    ensures |r| == n && AllSpaces(r)
  {
    seq(n, _ => ' ')
  }

  lemma {:induction false} Utf16LengthAppend(s: string, t: string)
    ensures Utf16Length(s + t) == Utf16Length(s) + Utf16Length(t)
  {
    if s == [] {
      assert s + t == t;
    } else {
      assert (s + t)[1..] == s[1..] + t;
      Utf16LengthAppend(s[1..], t);
    }
  }

  /** On the Basic Multilingual Plane, characters and code units coincide. */
  lemma {:induction false} Utf16LengthInBmp(s: string)
    requires InBmp(s)
    ensures Utf16Length(s) == |s|
  {
    if s != [] {
      assert InBmp(s[1..]) by {
        forall i | 0 <= i < |s[1..]| ensures s[1..][i] as int < 0x1_0000 {
          assert s[1..][i] == s[i + 1];
        }
      }
      Utf16LengthInBmp(s[1..]);
    }
  }

  /** `s.padEnd(maxLength)` with the default filler " ", as section 22.1.3.16
      of ECMAScript 2024 (ECMA-262) defines it through StringPad: a string
      already `maxLength` code units long or longer is returned unchanged,
      otherwise spaces are appended until it is exactly `maxLength` long. */
  function PadEnd(s: string, maxLength: nat): (r: string)
    ensures |s| <= |r| && r[..|s|] == s
    ensures AllSpaces(r[|s|..])
    ensures Utf16Length(r) == Max(maxLength, Utf16Length(s))
  {
    var len := Utf16Length(s);
    if maxLength <= len then
      s
    else
      var fill := Spaces(maxLength - len);
      Utf16LengthAppend(s, fill);
      Utf16LengthInBmp(fill);
      assert (s + fill)[|s|..] == fill;
      s + fill
  }

  /** The three properties PadEnd promises determine its result: any string
      that starts with `s`, continues with spaces only and is
      max(maxLength, length of s) code units long is `s.padEnd(maxLength)`. */
  lemma PadEndUnique(s: string, maxLength: nat, r: string)
    requires |s| <= |r| && r[..|s|] == s
    requires AllSpaces(r[|s|..])
    requires Utf16Length(r) == Max(maxLength, Utf16Length(s))
    ensures r == PadEnd(s, maxLength)
  {
    var p := PadEnd(s, maxLength);
    var rt, pt := r[|s|..], p[|s|..];
    assert r == s + rt;
    assert p == s + pt;
    Utf16LengthAppend(s, rt);
    Utf16LengthAppend(s, pt);
    Utf16LengthInBmp(rt);
    Utf16LengthInBmp(pt);
    assert |rt| == |pt|;
    assert rt == pt;
  }

  /** For a tag of BMP characters the padded width is max(maxLength, |s|)
      characters: short tags are filled up, long ones are never truncated. */
  lemma PadEndLengthInBmp(s: string, maxLength: nat)
    requires InBmp(s)
    ensures |PadEnd(s, maxLength)| == Max(maxLength, |s|)
  {
    var r := PadEnd(s, maxLength);
    Utf16LengthInBmp(s);
    assert InBmp(r) by {
      forall i | 0 <= i < |r| ensures r[i] as int < 0x1_0000 {
        if i < |s| {
          assert r[i] == r[..|s|][i];
        } else {
          assert r[i] == r[|s|..][i - |s|];
        }
      }
    }
    Utf16LengthInBmp(r);
  }

  /** `s` ends with `suffix`. */
  ghost predicate EndsWith(s: string, suffix: string) {
    |suffix| <= |s| && s[|s| - |suffix|..] == suffix
  }

  /** `line` is `head`, then nothing but spaces, then `tail`. */
  ghost predicate Framed(line: string, head: string, tail: string) {
    |head| + |tail| <= |line|
    && line[..|head|] == head
    && EndsWith(line, tail)
    && AllSpaces(line[|head|..|line| - |tail|])
  }

  /** A framed line is determined by its head, its tail and its length. */
  lemma {:induction false} FramedUnique(a: string, b: string, head: string, tail: string)
    requires Framed(a, head, tail) && Framed(b, head, tail)
    requires Utf16Length(a) == Utf16Length(b)
    ensures a == b
  {
    var ma, mb := a[|head|..|a| - |tail|], b[|head|..|b| - |tail|];
    assert a == head + ma + tail;
    assert b == head + mb + tail;
    Utf16LengthAppend(head, ma);
    Utf16LengthAppend(head + ma, tail);
    Utf16LengthAppend(head, mb);
    Utf16LengthAppend(head + mb, tail);
    Utf16LengthInBmp(ma);
    Utf16LengthInBmp(mb);
    assert ma == mb;
  }

  /** A line with one column padded to `width`: `pre + s.padEnd(width) + post`.
      The padded text appears in full and only spaces follow it up to
      `post`; the column is max(width, length of s) code units wide. */
  function PaddedLine(pre: string, s: string, width: nat, post: string): (line: string)
    ensures Framed(line, pre + s, post)
    ensures Utf16Length(line) == Utf16Length(pre) + Max(width, Utf16Length(s)) + Utf16Length(post)
  {
    var p := PadEnd(s, width);
    var line := pre + p + post;
    assert line[..|pre + s|] == pre + s by {
      assert line[..|pre| + |p|] == pre + p;
      assert (pre + p)[..|pre| + |s|] == pre + p[..|s|];
    }
    assert line[|line| - |post|..] == post;
    assert line[|pre + s|..|line| - |post|] == p[|s|..];
    Utf16LengthAppend(pre, p);
    Utf16LengthAppend(pre + p, post);
    line
  }

  /** The column separator " :: " is 4 code units long. */
  lemma SeparatorLength()
    ensures Utf16Length(" :: ") == 4
  {
  }

  /** `line` ends with `rest`, and `rest` starts `offset` UTF-16 code units
      into `line`. */
  ghost predicate ColumnAt(line: string, rest: string, offset: nat) {
    EndsWith(line, rest) && Utf16Length(line[..|line| - |rest|]) == offset
  }

  /** In a line `lead :: s.padEnd(width) :: rest`, when `s` fits its column,
      `rest` starts at a fixed code unit offset: the lead's length plus the
      column width plus the two separators. */
  lemma {:induction false} NextColumnOffset(lead: string, s: string, width: nat, rest: string)
    requires Utf16Length(s) <= width
    ensures ColumnAt(PaddedLine(lead + " :: ", s, width, " :: " + rest), rest, Utf16Length(lead) + width + 8)
  {
    var pre, p := lead + " :: ", PadEnd(s, width);
    var head := pre + p + " :: ";
    var line := pre + p + (" :: " + rest);
    assert line == head + rest;
    assert line[..|line| - |rest|] == head;
    Utf16LengthAppend(pre + p, " :: ");
    Utf16LengthAppend(pre, p);
    Utf16LengthAppend(lead, " :: ");
    SeparatorLength();
  }

  /** A plain JavaScript `Error`, as `new Error(message)` creates it. */
  datatype JsError = JsError(message: string)
}
