/** The JavaScript string operations the release script relies on, on `seq<char>`. */
module Text {

  /** A value that may be `undefined`. */
  datatype Option<T> = None | Some(value: T)

  /** JavaScript truthiness of a possibly-undefined string: `undefined` and `""` are falsy. */
  predicate Truthy(o: Option<string>) {
    o.Some? && o.value != ""
  }

  /** A possibly-undefined string inside a template literal: `undefined` is spelled out. */
  function Interpolate(o: Option<string>): string {
    if o.Some? then o.value else "undefined"
  }

  /** `s.startsWith(p)` */
  predicate StartsWith(s: string, p: string) {
    |p| <= |s| && s[..|p|] == p
  }

  /** `sub` occurs in `s` starting at index `i`. */
  predicate OccursAt(s: string, sub: string, i: int) {
    0 <= i && i + |sub| <= |s| && s[i..i + |sub|] == sub
  }

  /** `s.includes(sub)`: some start position of `s`, tried left to right, begins with `sub`. */
  predicate Includes(s: string, sub: string)
    decreases |s|
  {
    StartsWith(s, sub) || (|s| > 0 && Includes(s[1..], sub))
  }

  /** An occurrence at any index makes `includes` true. */
  lemma {:induction false} OccurrenceIncluded(s: string, sub: string, i: int)
    requires OccursAt(s, sub, i)
    ensures Includes(s, sub)
    decreases i
  {
    if i == 0 {
      assert s[..|sub|] == s[0..|sub|];
    } else {
      assert s[1..][i - 1..i - 1 + |sub|] == s[i..i + |sub|];
      OccurrenceIncluded(s[1..], sub, i - 1);
    }
  }

  /** When `includes` is true there is an index where `sub` occurs. */
  lemma {:induction false} IncludedOccurrence(s: string, sub: string) returns (i: int)
    requires Includes(s, sub)
    ensures OccursAt(s, sub, i)
    decreases |s|
  {
    if StartsWith(s, sub) {
      i := 0;
      assert s[0..|sub|] == s[..|sub|];
    } else {
      var j := IncludedOccurrence(s[1..], sub);
      i := j + 1;
      assert s[1..][j..j + |sub|] == s[i..i + |sub|];
    }
  }

  /** `includes` sees through concatenation on either side. */
  lemma IncludesConcat(a: string, b: string, sub: string)
    requires Includes(a, sub) || Includes(b, sub)
    ensures Includes(a + b, sub)
  {
    if Includes(b, sub) {
      var i := IncludedOccurrence(b, sub);
      assert (a + b)[|a| + i..|a| + i + |sub|] == b[i..i + |sub|];
      OccurrenceIncluded(a + b, sub, |a| + i);
    } else {
      var i := IncludedOccurrence(a, sub);
      assert (a + b)[i..i + |sub|] == a[i..i + |sub|];
      OccurrenceIncluded(a + b, sub, i);
    }
  }

  /** Inside an occurrence of `sub` every character is one of `sub`'s. */
  lemma NotAtOccurrence(s: string, sub: string, i: int, k: int, c: char)
    requires OccursAt(s, sub, i) && i <= k < i + |sub|
    requires c !in sub
    ensures s[k] != c
  {
    assert s[i..i + |sub|][k - i] == s[k];
  }

  /** A substring without a line feed that occurs in two texts joined by a line feed occurs in
      one of them. */
  lemma IncludesAcrossLineFeed(a: string, b: string, sub: string)
    requires '\n' !in sub
    requires Includes(a + "\n" + b, sub)
    ensures Includes(a, sub) || Includes(b, sub)
  {
    var s := a + "\n" + b;
    var i := IncludedOccurrence(s, sub);
    if i + |sub| <= |a| {
      assert s[i..i + |sub|] == a[i..i + |sub|];
      OccurrenceIncluded(a, sub, i);
    } else if i > |a| {
      var j := i - |a| - 1;
      assert s[i..i + |sub|] == b[j..j + |sub|];
      OccurrenceIncluded(b, sub, j);
    } else {
      NotAtOccurrence(s, sub, i, |a|, '\n');
      assert false;
    }
  }

  /** `c.toLowerCase()` on the ASCII letters; every other character is left alone. */
  function LowerChar(c: char): char {
    if 'A' <= c <= 'Z' then (c as int - 'A' as int + 'a' as int) as char else c
  }

  /** `s.toLowerCase()`, character by character. */
  function ToLower(s: string): string {
    seq(|s|, i requires 0 <= i < |s| => LowerChar(s[i]))
  }

  /** `s.split(' ')`: the pieces between single spaces, empty pieces included. */
  function Split(s: string): (parts: seq<string>)
    ensures |parts| >= 1
    ensures forall k :: 0 <= k < |parts| ==> ' ' !in parts[k]
    decreases |s|
  {
    if s == [] then [""]
    else
      var rest := Split(s[1..]);
      if s[0] == ' ' then [""] + rest
      else [[s[0]] + rest[0]] + rest[1..]
  }

  /** `parts.join(' ')` */
  function Join(parts: seq<string>): string
    requires |parts| >= 1
    decreases |parts|
  {
    if |parts| == 1 then parts[0] else parts[0] + " " + Join(parts[1..])
  }

  /** Splitting on spaces loses nothing: joining the pieces gives the string back. */
  lemma {:induction false} JoinSplit(s: string)
    ensures Join(Split(s)) == s
    decreases |s|
  {
    if s != [] {
      var rest := Split(s[1..]);
      JoinSplit(s[1..]);
      if s[0] == ' ' {
        assert ([""] + rest)[1..] == rest;
      } else if |rest| > 1 {
        var parts := [[s[0]] + rest[0]] + rest[1..];
        assert parts[1..] == rest[1..];
        assert Join(rest) == rest[0] + " " + Join(rest[1..]);
      }
    }
  }

  /** Splitting a space-free word followed by more text extends the first piece. */
  lemma {:induction false} SplitWord(w: string, t: string)
    requires ' ' !in w
    ensures Split(w + t) == [w + Split(t)[0]] + Split(t)[1..]
    decreases |w|
  {
    if w != [] {
      assert (w + t)[1..] == w[1..] + t;
      assert ' ' !in w[1..] by {
        assert forall k :: 0 <= k < |w| - 1 ==> w[1..][k] == w[k + 1];
      }
      SplitWord(w[1..], t);
      assert [w[0]] + (w[1..] + Split(t)[0]) == w + Split(t)[0];
    } else {
      var parts := Split(t);
      assert w + t == t && w + parts[0] == parts[0];
      assert [parts[0]] + parts[1..] == parts;
    }
  }

  /** Space-free pieces come back unchanged from a join followed by a split. */
  lemma {:induction false} SplitJoin(parts: seq<string>)
    requires |parts| >= 1
    requires forall k :: 0 <= k < |parts| ==> ' ' !in parts[k]
    ensures Split(Join(parts)) == parts
    decreases |parts|
  {
    if |parts| == 1 {
      SplitWord(parts[0], "");
      assert parts[0] + "" == parts[0];
    } else {
      var tail := Join(parts[1..]);
      SplitJoin(parts[1..]);
      assert (" " + tail)[1..] == tail;
      assert Split(" " + tail) == [""] + parts[1..];
      assert parts[0] + " " + tail == parts[0] + (" " + tail);
      SplitWord(parts[0], " " + tail);
      assert parts[0] + "" == parts[0];
      assert ([""] + parts[1..])[1..] == parts[1..];
    }
  }

  predicate IsLineBreak(c: char) {
    c == '\r' || c == '\n'
  }

  /** `s.replace(/(\r\n|\n|\r)/gm, '')`: the alternatives are tried in order at each position. */
  function ReplaceLineBreaks(s: string): string
    decreases |s|
  {
    if s == [] then []
    else if |s| >= 2 && s[0] == '\r' && s[1] == '\n' then ReplaceLineBreaks(s[2..])
    else if s[0] == '\n' || s[0] == '\r' then ReplaceLineBreaks(s[1..])
    else [s[0]] + ReplaceLineBreaks(s[1..])
  }

  /** `s` with every carriage return and line feed taken out. */
  function WithoutLineBreaks(s: string): (r: string)
    ensures forall k :: 0 <= k < |r| ==> !IsLineBreak(r[k])
    ensures |r| <= |s|
    decreases |s|
  {
    if s == [] then []
    else (if IsLineBreak(s[0]) then [] else [s[0]]) + WithoutLineBreaks(s[1..])
  }

  /** The regular-expression replacement removes exactly the line-break characters. */
  lemma {:induction false} ReplaceRemovesLineBreaks(s: string)
    ensures ReplaceLineBreaks(s) == WithoutLineBreaks(s)
    decreases |s|
  {
    if s != [] {
      if |s| >= 2 && s[0] == '\r' && s[1] == '\n' {
        ReplaceRemovesLineBreaks(s[2..]);
        assert s[1..][1..] == s[2..];
        assert WithoutLineBreaks(s[1..]) == WithoutLineBreaks(s[2..]);
      } else {
        ReplaceRemovesLineBreaks(s[1..]);
      }
    }
  }

  /** Removing line breaks distributes over concatenation. */
  lemma {:induction false} WithoutLineBreaksConcat(a: string, b: string)
    ensures WithoutLineBreaks(a + b) == WithoutLineBreaks(a) + WithoutLineBreaks(b)
    decreases |a|
  {
    if a == [] {
      assert a + b == b;
    } else {
      assert (a + b)[1..] == a[1..] + b;
      WithoutLineBreaksConcat(a[1..], b);
    }
  }

  /** A string without line breaks is left as it is; one made only of line breaks disappears. */
  lemma {:induction false} WithoutLineBreaksExtremes(s: string)
    ensures (forall k :: 0 <= k < |s| ==> !IsLineBreak(s[k])) ==> WithoutLineBreaks(s) == s
    ensures (forall k :: 0 <= k < |s| ==> IsLineBreak(s[k])) ==> WithoutLineBreaks(s) == []
    decreases |s|
  {
    if s != [] {
      assert forall k :: 0 <= k < |s| - 1 ==> s[1..][k] == s[k + 1];
      WithoutLineBreaksExtremes(s[1..]);
      assert [s[0]] + s[1..] == s;
    }
  }
}
