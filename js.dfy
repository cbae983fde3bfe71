/** The small part of JavaScript's value model and of its String methods that the
    profile form relies on: optional (undefined / null) values, String.prototype.trim
    and String.prototype.split with a one-space separator. */
module JsText {

  /** A JavaScript property that may be missing (`undefined`), explicitly `null`,
      or hold a value. */
  datatype JsOpt<T> = Undefined | Null | Defined(value: T)

  /** JavaScript truthiness of an optional string: only a non-empty string is truthy. */
  predicate TruthyString(s: JsOpt<string>) {
    s.Defined? && s.value != ""
  }

  /** The characters that trim() removes: the WhiteSpace and LineTerminator code
      points of ECMAScript (section 12.2 and 12.3 of ECMA-262), including every
      Unicode space separator (category Zs). */
  predicate IsWhitespace(c: char) {
    c == '\t' || c == '\n' || c == '\U{000B}' || c == '\U{000C}' || c == '\r' ||
    c == ' ' || c == '\U{00A0}' || c == '\U{1680}' ||
    ('\U{2000}' <= c <= '\U{200A}') ||
    c == '\U{2028}' || c == '\U{2029}' || c == '\U{202F}' || c == '\U{205F}' ||
    c == '\U{3000}' || c == '\U{FEFF}'
  }

  /** Every character of `s` is whitespace. */
  predicate IsBlank(s: string) {
    forall i :: 0 <= i < |s| ==> IsWhitespace(s[i])
  }

  /** The index of the first character at or after `from` that is not whitespace,
      or `|s|` when there is none. */
  function TextStart(s: string, from: nat): (i: nat)
    requires from <= |s|
    ensures from <= i <= |s|
    decreases |s| - from
  {
    if from < |s| && IsWhitespace(s[from]) then TextStart(s, from + 1) else from
  }

  /** The index just after the last character before `hi` (and at or after `lo`) that
      is not whitespace, or `lo` when there is none. */
  function TextEnd(s: string, lo: nat, hi: nat): (j: nat)
    requires lo <= hi <= |s|
    ensures lo <= j <= hi
    decreases hi
  {
    if lo < hi && IsWhitespace(s[hi - 1]) then TextEnd(s, lo, hi - 1) else hi
  }

  /** String.prototype.trim: the characters between the leading and the trailing
      whitespace. Nothing is left exactly when `s` is blank (`TrimSlice` says which
      slice of `s` is left otherwise). */
  function Trim(s: string): (r: string)
    ensures r == "" <==> IsBlank(s)
  {
    var i := TextStart(s, 0);
    TrimEmptyIffBlank(s);
    s[i..TextEnd(s, i, |s|)]
  }

  /** TextStart skips only whitespace and stops at a character that is not. */
  lemma {:induction false} TextStartSkipsBlank(s: string, from: nat)
    requires from <= |s|
    ensures forall k :: from <= k < TextStart(s, from) ==> IsWhitespace(s[k])
    ensures TextStart(s, from) < |s| ==> !IsWhitespace(s[TextStart(s, from)])
    decreases |s| - from
  {
    if from < |s| && IsWhitespace(s[from]) {
      TextStartSkipsBlank(s, from + 1);
    }
  }

  /** TextEnd skips only whitespace and stops after a character that is not. */
  lemma {:induction false} TextEndSkipsBlank(s: string, lo: nat, hi: nat)
    requires lo <= hi <= |s|
    ensures forall k :: TextEnd(s, lo, hi) <= k < hi ==> IsWhitespace(s[k])
    ensures lo < TextEnd(s, lo, hi) ==> !IsWhitespace(s[TextEnd(s, lo, hi) - 1])
    decreases hi
  {
    if lo < hi && IsWhitespace(s[hi - 1]) {
      TextEndSkipsBlank(s, lo, hi - 1);
    }
  }

  /** The trimmed string is the slice of `s` that starts `i` characters in, with only
      whitespace before and after it, and when it is not empty it starts and ends with a
      character that is not whitespace. */
  lemma TrimSlice(s: string)
    ensures var r, i := Trim(s), TextStart(s, 0);
      i + |r| <= |s| && r == s[i..i + |r|] && IsBlank(s[..i]) && IsBlank(s[i + |r|..]) &&
      (r != "" ==> !IsWhitespace(r[0]) && !IsWhitespace(r[|r| - 1]))
  {
    var i := TextStart(s, 0);
    var j := TextEnd(s, i, |s|);
    TextStartSkipsBlank(s, 0);
    TextEndSkipsBlank(s, i, |s|);
    assert Trim(s) == s[i..j];
  }

  /** Trimming leaves nothing exactly when `s` is blank. */
  lemma TrimEmptyIffBlank(s: string)
    ensures var i := TextStart(s, 0); TextEnd(s, i, |s|) == i <==> IsBlank(s)
  {
    var i := TextStart(s, 0);
    TextStartSkipsBlank(s, 0);
    TextEndSkipsBlank(s, i, |s|);
  }

  /** The one-space string " ". */
  const Space: char := ' '

  /** `s.split(" ")`: the pieces between single spaces, in order. Consecutive spaces
      and leading or trailing spaces give empty pieces; there is always at least one
      piece. The first piece is the longest space-free prefix of `s`. */
  function Split(s: string): (parts: seq<string>)
    ensures |parts| >= 1
    ensures forall i :: 0 <= i < |parts| ==> Space !in parts[i]
    ensures |parts[0]| <= |s| && parts[0] == s[..|parts[0]|]
    ensures |parts[0]| < |s| ==> s[|parts[0]|] == Space
  {
    if s == [] then [""]
    else
      var rest := Split(s[1..]);
      if s[0] == Space then [""] + rest
      else [[s[0]] + rest[0]] + rest[1..]
  }

  /** `parts.join(" ")`. */
  function Join(parts: seq<string>): string
    requires |parts| >= 1
  {
    if |parts| == 1 then parts[0] else parts[0] + [Space] + Join(parts[1..])
  }

  /** Joining the pieces of a split with the separator gives back the string. */
  lemma {:induction false} SplitJoin(s: string)
    ensures Join(Split(s)) == s
  {
    if s != [] {
      var rest := Split(s[1..]);
      SplitJoin(s[1..]);
      if s[0] == Space {
        assert Split(s)[1..] == rest;
      } else if |rest| > 1 {
        assert Split(s)[1..] == rest[1..];
        assert Join(Split(s)) == [s[0]] + (rest[0] + [Space] + Join(rest[1..]));
      }
    }
  }

  /** A string without a space splits into itself alone. */
  lemma {:induction false} SplitWord(w: string)
    requires Space !in w
    ensures Split(w) == [w]
  {
    if w != [] {
      SplitWord(w[1..]);
      assert [w[0]] + w[1..] == w;
    }
  }

  /** Splitting a space-free word followed by a space and a tail gives the word and
      then the pieces of the tail. */
  lemma {:induction false} SplitWordSpace(w: string, t: string)
    requires Space !in w
    ensures Split(w + [Space] + t) == [w] + Split(t)
  {
    var s := w + [Space] + t;
    if w == [] {
      assert s[1..] == t;
    } else {
      assert s[1..] == w[1..] + [Space] + t;
      SplitWordSpace(w[1..], t);
      assert [w[0]] + w[1..] == w;
    }
  }

  /** Splitting the join of space-free pieces gives the pieces back. */
  lemma {:induction false} JoinSplit(parts: seq<string>)
    requires |parts| >= 1
    requires forall i :: 0 <= i < |parts| ==> Space !in parts[i]
    ensures Split(Join(parts)) == parts
  {
    if |parts| == 1 {
      SplitWord(parts[0]);
    } else {
      JoinSplit(parts[1..]);
      SplitWordSpace(parts[0], Join(parts[1..]));
      assert [parts[0]] + parts[1..] == parts;
    }
  }

  /** The join of two or more pieces ends with a space and the last piece. */
  lemma {:induction false} JoinLast(parts: seq<string>)
    requires |parts| > 1
    ensures Join(parts) == Join(parts[..|parts| - 1]) + [Space] + parts[|parts| - 1]
  {
    if |parts| > 2 {
      JoinLast(parts[1..]);
      assert parts[1..][..|parts| - 2] == parts[..|parts| - 1][1..];
    }
  }

  /** The last piece of a split is the longest space-free suffix of `s`. */
  lemma SplitLast(s: string)
    ensures var parts := Split(s); var l := parts[|parts| - 1];
      |l| <= |s| && l == s[|s| - |l|..] && (|l| < |s| ==> s[|s| - |l| - 1] == Space)
  {
    var parts := Split(s);
    SplitJoin(s);
    if |parts| > 1 {
      JoinLast(parts);
    }
  }
}
