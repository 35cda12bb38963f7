/** Strings as the formatter builds them: lines, prefixes, joining and ASCII upper-casing. */
module Text {

  predicate StartsWith(s: string, prefix: string) {
    |prefix| <= |s| && s[..|prefix|] == prefix
  }

  predicate EndsWith(s: string, suffix: string) {
    |suffix| <= |s| && s[|s| - |suffix|..] == suffix
  }

  /** A string does not start with `prefix` when the two differ at some index of `prefix`. */
  lemma DiffersAt(s: string, prefix: string, k: nat)
    requires k < |prefix| && k < |s| && s[k] != prefix[k]
    ensures !StartsWith(s, prefix)
  {
  }

  /**
   * The text of a sequence of emitted lines: each line followed by "\n".
   * Every `output += ...` of the formatter appends text of this shape.
   */
  function Unlines(lines: seq<string>): string
    decreases |lines|
  {
    if lines == [] then "" else Unlines(lines[..|lines| - 1]) + lines[|lines| - 1] + "\n"
  }

  /** Concatenation is associative; stated once so that proofs can cite it. */
  lemma Assoc<T>(a: seq<T>, b: seq<T>, c: seq<T>)
    ensures a + b + c == a + (b + c)
  {
  }

  /** Prepending to a chain of four concatenations prepends to their result. */
  lemma AssocChain<T>(n: seq<T>, a: seq<T>, b: seq<T>, c: seq<T>, d: seq<T>)
    ensures n + a + b + c + d == n + (a + b + c + d)
  {
    Assoc(n, a, b);
    Assoc(n, a + b, c);
    Assoc(n, a + b + c, d);
  }

  /** Emitting one more line appends it and a newline. */
  lemma UnlinesSnoc(lines: seq<string>, line: string)
    ensures Unlines(lines + [line]) == Unlines(lines) + line + "\n"
  {
    assert (lines + [line])[..|lines|] == lines;
  }

  /** Emitting a blank line appends a newline. */
  lemma UnlinesBlank(lines: seq<string>)
    ensures Unlines(lines + [""]) == Unlines(lines) + "\n"
  {
    UnlinesSnoc(lines, "");
    assert Unlines(lines) + "" == Unlines(lines);
  }

  /** Emitting a blank line and then a line appends "\n", the line and a newline. */
  lemma UnlinesBlankThen(lines: seq<string>, line: string)
    ensures Unlines(lines + ["", line]) == Unlines(lines) + "\n" + line + "\n"
  {
    UnlinesBlank(lines);
    UnlinesSnoc(lines + [""], line);
    assert lines + [""] + [line] == lines + ["", line];
  }

  /** Emitting a line and then a blank line appends the line and two newlines. */
  lemma UnlinesThenBlank(lines: seq<string>, line: string)
    ensures Unlines(lines + [line, ""]) == Unlines(lines) + line + "\n" + "\n"
  {
    UnlinesSnoc(lines, line);
    UnlinesBlank(lines + [line]);
    assert lines + [line] + [""] == lines + [line, ""];
  }

  /** Emitting a block of lines and then more lines appends both texts. */
  lemma UnlinesAppend3(lines: seq<string>, chunk: seq<string>, rest: seq<string>)
    ensures Unlines(lines + (chunk + rest)) == Unlines(lines + chunk) + Unlines(rest)
  {
    Assoc(lines, chunk, rest);
    UnlinesAppend(lines + chunk, rest);
  }

  /** Appending lines appends their text. */
  lemma {:induction false} UnlinesAppend(a: seq<string>, b: seq<string>)
    ensures Unlines(a + b) == Unlines(a) + Unlines(b)
    decreases |b|
  {
    if b == [] {
      assert a + b == a;
    } else {
      var b' := b[..|b| - 1];
      UnlinesAppend(a, b');
      assert (a + b)[..|a + b| - 1] == a + b';
    }
  }

  /** The text of lines starts with the text of their first line. */
  lemma {:induction false} UnlinesCons(line: string, rest: seq<string>)
    ensures Unlines([line] + rest) == line + "\n" + Unlines(rest)
    decreases |rest|
  {
    if rest == [] {
      assert [line] + rest == [] + [line];
      UnlinesSnoc([], line);
    } else {
      var init := rest[..|rest| - 1];
      var last := rest[|rest| - 1];
      UnlinesCons(line, init);
      assert [line] + rest == ([line] + init) + [last];
      UnlinesSnoc([line] + init, last);
      UnlinesSnoc(init, last);
      assert init + [last] == rest;
    }
  }

  /** The text of `a + b` starts with the text of `a`. */
  lemma UnlinesPrefix(a: seq<string>, b: seq<string>)
    ensures StartsWith(Unlines(a + b), Unlines(a))
  {
    UnlinesAppend(a, b);
    assert Unlines(a + b)[..|Unlines(a)|] == Unlines(a);
  }

  /** The text of a line and a blank line, then more lines. */
  lemma UnlinesLineBlank(line: string, rest: seq<string>)
    ensures Unlines([line, ""] + rest) == line + "\n" + "\n" + Unlines(rest)
  {
    UnlinesCons(line, [""] + rest);
    assert [line] + ([""] + rest) == [line, ""] + rest;
    UnlinesCons("", rest);
  }

  /** The first character of the text of lines: that of the first line, or "\n" when it is blank. */
  lemma UnlinesFirstChar(lines: seq<string>)
    requires lines != []
    ensures |Unlines(lines)| > 0
    ensures Unlines(lines)[0] == (if lines[0] == "" then '\n' else lines[0][0])
  {
    UnlinesCons(lines[0], lines[1..]);
    assert [lines[0]] + lines[1..] == lines;
  }

  lemma PrefixOf(a: string, b: string)
    ensures StartsWith(a + b, a)
  {
    assert (a + b)[..|a|] == a;
  }

  /** Text that ends in "\n", with one more "\n", ends in two. */
  lemma SecondNewline(s: string)
    requires EndsWith(s, "\n")
    ensures EndsWith(s + "\n", "\n" + "\n")
  {
    assert s[|s| - 1] == '\n';
    assert (s + "\n")[|s| + 1 - 2..] == "\n" + "\n";
  }

  /** The text of lines is non-empty exactly when there are lines, and then it ends in "\n". */
  lemma {:induction false} UnlinesShape(lines: seq<string>)
    ensures Unlines(lines) == "" <==> lines == []
    ensures lines != [] ==> |Unlines(lines)| > 0 && Unlines(lines)[|Unlines(lines)| - 1] == '\n'
  {
  }

  /** `Array.prototype.join` over strings. */
  function Join(values: seq<string>, separator: string): string
    decreases |values|
  {
    if |values| == 0 then ""
    else if |values| == 1 then values[0]
    else Join(values[..|values| - 1], separator) + separator + values[|values| - 1]
  }

  predicate IsLowerAscii(c: char) {
    'a' <= c <= 'z'
  }

  function UpperChar(c: char): char {
    if IsLowerAscii(c) then (c as int - 32) as char else c
  }

  /** `String.prototype.toUpperCase` restricted to ASCII letters. */
  function UpperAscii(s: string): string {
    seq(|s|, i requires 0 <= i < |s| => UpperChar(s[i]))
  }

  /** Upper-casing keeps the length, maps each ASCII lower-case letter to its capital and keeps every other character. */
  lemma UpperAsciiChars(s: string)
    ensures |UpperAscii(s)| == |s|
    ensures forall i :: 0 <= i < |s| ==> !IsLowerAscii(UpperAscii(s)[i])
    ensures forall i :: 0 <= i < |s| && !IsLowerAscii(s[i]) ==> UpperAscii(s)[i] == s[i]
    ensures forall i :: 0 <= i < |s| && IsLowerAscii(s[i]) ==> 'A' <= UpperAscii(s)[i] <= 'Z' && UpperAscii(s)[i] as int + 32 == s[i] as int
  {
  }
}
