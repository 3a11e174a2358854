/** How `run_command_with_args` turns one command string into a program name
    and an argument list: Rust's `str::split_whitespace`, with no quoting and
    no escapes. */
module CommandLine {
  import opened Wrappers
  import opened Sequences

  /** Rust's `char::is_whitespace`: the characters with the Unicode
      White_Space property. */
  predicate IsWhitespace(c: char) {
    ('\t' <= c <= '\r') || c == ' ' || c == '\U{85}' || c == '\U{A0}' || c == '\U{1680}'
    || ('\U{2000}' <= c <= '\U{200A}') || c == '\U{2028}' || c == '\U{2029}'
    || c == '\U{202F}' || c == '\U{205F}' || c == '\U{3000}'
  }

  /** A token `split_whitespace` can yield: non-empty, no whitespace inside. */
  predicate IsWord(w: string) {
    |w| > 0 && forall c :: c in w ==> !IsWhitespace(c)
  }

  predicate AllWhitespace(s: string) {
    forall c :: c in s ==> IsWhitespace(c)
  }

  /** The length of the run of non-whitespace characters that starts `s`. */
  function WordLength(s: string): (n: nat)
    ensures n <= |s|
    ensures forall i :: 0 <= i < n ==> !IsWhitespace(s[i])
    ensures n < |s| ==> IsWhitespace(s[n])
  {
    if s == [] || IsWhitespace(s[0]) then 0 else 1 + WordLength(s[1..])
  }

  /** `s.split_whitespace()`: the maximal whitespace-free runs of `s`, in order. */
  function Words(s: string): (ws: seq<string>)
    ensures forall i :: 0 <= i < |ws| ==> IsWord(ws[i])
    ensures |ws| <= |s|
    decreases |s|
  {
    if s == [] then []
    else if IsWhitespace(s[0]) then Words(s[1..])
    else
      var n := WordLength(s);
      [s[..n]] + Words(s[n..])
  }

  /** Words separated by single spaces: the inverse of `Words` on words. */
  function Unwords(ws: seq<string>): string {
    if ws == [] then ""
    else if |ws| == 1 then ws[0]
    else ws[0] + " " + Unwords(ws[1..])
  }

  /** A program name with its arguments, as handed to `Command::new(..).args(..)`. */
  datatype Invocation = Invocation(program: string, args: seq<string>)

  /** The split in `run_command_with_args`: the first token is the program and
      the remaining tokens are its arguments. `None` is the case in which
      `.next().unwrap()` panics. */
  function Tokenize(command: string): (r: Option<Invocation>)
    ensures r.None? <==> AllWhitespace(command)
    ensures r.Some? ==> IsWord(r.value.program) && forall a :: a in r.value.args ==> IsWord(a)
  {
    NoWordsIffAllWhitespace(command);
    var ws := Words(command);
    if ws == [] then None else Some(Invocation(ws[0], ws[1..]))
  }

  /** A string has no tokens exactly when every character in it is whitespace. */
  lemma {:induction false} NoWordsIffAllWhitespace(s: string)
    ensures Words(s) == [] <==> AllWhitespace(s)
    decreases |s|
  {
    if s != [] {
      if IsWhitespace(s[0]) {
        NoWordsIffAllWhitespace(s[1..]);
        assert s == [s[0]] + s[1..];
        assert forall c :: c in s ==> c == s[0] || c in s[1..];
      } else {
        assert s[0] in s;
      }
    }
  }

  lemma {:induction false} WordLengthOfWord(w: string)
    requires forall c :: c in w ==> !IsWhitespace(c)
    ensures WordLength(w) == |w|
    decreases |w|
  {
    if w != [] {
      assert w[0] in w;
      assert forall c :: c in w[1..] ==> c in w;
      WordLengthOfWord(w[1..]);
    }
  }

  /** A word splits to itself. */
  lemma WordsOfWord(w: string)
    requires IsWord(w)
    ensures Words(w) == [w]
  {
    WordLengthOfWord(w);
    assert w[0] in w;
    assert w[..|w|] == w;
  }

  /** A run that stops before the end of `a`, or where `t` begins with
      whitespace, is not lengthened by appending `t`. */
  lemma {:induction false} WordLengthAppend(a: string, t: string)
    requires WordLength(a) < |a| || (t != [] && IsWhitespace(t[0]))
    ensures WordLength(a + t) == WordLength(a)
    decreases |a|
  {
    if a != [] && !IsWhitespace(a[0]) {
      assert (a + t)[1..] == a[1..] + t;
      WordLengthAppend(a[1..], t);
    }
  }

  /** Tokens never span a whitespace character: splitting `a`, a whitespace
      character, then `b` gives the tokens of `a` followed by those of `b`. */
  lemma {:induction false} WordsSeparated(a: string, c: char, b: string)
    requires IsWhitespace(c)
    ensures Words(a + [c] + b) == Words(a) + Words(b)
    decreases |a|
  {
    var s := a + [c] + b;
    if a == [] {
      assert s[1..] == b;
    } else if IsWhitespace(a[0]) {
      assert s[1..] == a[1..] + [c] + b;
      WordsSeparated(a[1..], c, b);
    } else {
      var n := WordLength(a);
      WordLengthAppend(a, [c] + b);
      assert s == a + ([c] + b);
      assert s[..n] == a[..n];
      assert s[n..] == a[n..] + [c] + b;
      WordsSeparated(a[n..], c, b);
      AppendAssociates([a[..n]], Words(a[n..]), Words(b));
    }
  }

  /** A word, a whitespace character and the rest split into that word
      followed by the tokens of the rest. */
  lemma WordsCons(w: string, c: char, rest: string)
    requires IsWord(w) && IsWhitespace(c)
    ensures Words(w + [c] + rest) == [w] + Words(rest)
  {
    WordsSeparated(w, c, rest);
    WordsOfWord(w);
  }

  /** Round trip: joining words with single spaces and splitting again gives
      the words back. */
  lemma {:induction false} WordsUnwords(ws: seq<string>)
    requires forall i :: 0 <= i < |ws| ==> IsWord(ws[i])
    ensures Words(Unwords(ws)) == ws
    decreases |ws|
  {
    if |ws| == 1 {
      WordsOfWord(ws[0]);
    } else if |ws| > 1 {
      WordsUnwords(ws[1..]);
      WordsCons(ws[0], ' ', Unwords(ws[1..]));
      assert ws == [ws[0]] + ws[1..];
    }
  }

  /** Round trip for `run_command_with_args`: a command written as its program
      and arguments separated by single spaces tokenises back to them. */
  lemma TokenizeUnwords(program: string, args: seq<string>)
    requires IsWord(program)
    requires forall i :: 0 <= i < |args| ==> IsWord(args[i])
    ensures Tokenize(Unwords([program] + args)) == Some(Invocation(program, args))
  {
    var ws := [program] + args;
    forall i | 0 <= i < |ws|
      ensures IsWord(ws[i])
    {
      if i > 0 {
        assert ws[i] == args[i - 1];
      }
    }
    WordsUnwords(ws);
    assert ws[0] == program && ws[1..] == args;
    TokenizeOfWords(Unwords(ws), ws);
  }

  /** The first token is the program and the others are its arguments. */
  lemma TokenizeOfWords(command: string, ws: seq<string>)
    requires Words(command) == ws && ws != []
    ensures Tokenize(command) == Some(Invocation(ws[0], ws[1..]))
  {
  }
}
