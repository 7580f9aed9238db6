/** The few pieces of JavaScript string semantics the linker relies on:
    `String.prototype.split("/")`, which keeps empty pieces, indexing into
    its result, which yields `undefined` past the end, and the text a
    template literal `${v}` produces for a string or for `undefined`. */
module JsText {

  /** A JavaScript value that is either a string or `undefined`. */
  datatype MaybeString = Defined(text: string) | Undefined

  /** The separator every split of the linker uses. */
  const Slash: char := '/'

  /** The pieces joined back with the separator between them. */
  function Join(parts: seq<string>): string
    requires |parts| >= 1
  {
    if |parts| == 1 then parts[0] else parts[0] + [Slash] + Join(parts[1..])
  }

  /** No piece contains the separator. */
  predicate SlashFree(parts: seq<string>) {
    forall i :: 0 <= i < |parts| ==> Slash !in parts[i]
  }

  /** `s.split("/")`: the maximal slash-free pieces of `s`, empty ones included.
      There is always at least one piece; the pieces rejoin to `s`. */
  function Split(s: string): (parts: seq<string>)
    ensures |parts| >= 1
    ensures SlashFree(parts)
    ensures Join(parts) == s
  {
    if s == [] then [[]]
    else
      var rest := Split(s[1..]);
      if s[0] == Slash then
        assert ([[]] + rest)[1..] == rest;
        [[]] + rest
      else
        var parts := [[s[0]] + rest[0]] + rest[1..];
        assert parts[1..] == rest[1..];
        assert |rest| > 1 ==> Join(rest) == rest[0] + [Slash] + Join(rest[1..]);
        assert [s[0]] + s[1..] == s;
        parts
  }

  /** `parts[i]` in JavaScript: the piece, or `undefined` past the end. */
  function At(parts: seq<string>, i: nat): (v: MaybeString)
    ensures v.Defined? <==> i < |parts|
    ensures i < |parts| ==> v == Defined(parts[i])
  {
    if i < |parts| then Defined(parts[i]) else Undefined
  }

  /** The text `${v}` yields inside a template literal. */
  function ToText(v: MaybeString): (t: string)
    ensures v.Defined? ==> t == v.text
  {
    match v
    case Defined(s) => s
    case Undefined => "undefined"
  }

  /** A slash-free word in front of `t` merges into the first piece of `t`. */
  lemma {:induction false} SplitAfterWord(w: string, t: string)
    requires Slash !in w
    ensures Split(w + t) == [w + Split(t)[0]] + Split(t)[1..]
  {
    if w == [] {
      assert w + t == t;
      var p := Split(t);
      assert w + p[0] == p[0];
      assert [p[0]] + p[1..] == p;
    } else {
      assert (w + t)[1..] == w[1..] + t;
      SplitAfterWord(w[1..], t);
      assert [w[0]] + (w[1..] + Split(t)[0]) == w + Split(t)[0];
    }
  }

  /** A leading separator starts with an empty piece. */
  lemma SplitAfterSlash(t: string)
    ensures Split([Slash] + t) == [[]] + Split(t)
  {
    assert ([Slash] + t)[1..] == t;
  }

  /** Splitting undoes joining: any slash-free pieces are recovered exactly. */
  lemma {:induction false} SplitJoin(parts: seq<string>)
    requires |parts| >= 1 && SlashFree(parts)
    ensures Split(Join(parts)) == parts
  {
    if |parts| == 1 {
      assert parts[0] + [] == parts[0];
      SplitAfterWord(parts[0], []);
    } else {
      var tail := Join(parts[1..]);
      assert SlashFree(parts[1..]) by {
        forall i | 0 <= i < |parts[1..]| ensures Slash !in parts[1..][i] {
          assert parts[1..][i] == parts[i + 1];
        }
      }
      SplitJoin(parts[1..]);
      assert parts[0] + [Slash] + tail == parts[0] + ([Slash] + tail);
      SplitAfterWord(parts[0], [Slash] + tail);
      SplitAfterSlash(tail);
      assert parts[0] + [] == parts[0];
    }
  }

  /** `Split` is the only slash-free decomposition of a string: together with
      the contract of `Split` this is an if-and-only-if. */
  lemma SplitUnique(s: string, parts: seq<string>)
    requires |parts| >= 1 && SlashFree(parts) && Join(parts) == s
    ensures Split(s) == parts
  {
    SplitJoin(parts);
  }

  /** A string without a separator is a single piece. */
  lemma SplitNoSlash(s: string)
    requires Slash !in s
    ensures Split(s) == [s]
  {
    SplitJoin([s]);
  }
}
