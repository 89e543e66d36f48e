/** Ruby's `String#split(" ")`, which splits awk-style: runs of ASCII whitespace
    separate fields and leading or trailing whitespace produces no empty field. */
module Words {

  predicate IsSpace(c: char) {
    c == ' ' || c == '\t' || c == '\n' || c == '\U{B}' || c == '\U{C}' || c == '\r'
  }

  predicate NoSpace(w: string) {
    forall i | 0 <= i < |w| :: !IsSpace(w[i])
  }

  /** A field `split` can produce: non-empty and free of whitespace. */
  predicate IsWord(w: string) {
    |w| > 0 && NoSpace(w)
  }

  /** The string with every whitespace character removed. */
  function Squeeze(s: string): (r: string)
    ensures NoSpace(r)
  {
    if |s| == 0 then ""
    else (if IsSpace(s[0]) then "" else [s[0]]) + Squeeze(s[1..])
  }

  function Concat(ws: seq<string>): string {
    if |ws| == 0 then "" else ws[0] + Concat(ws[1..])
  }

  /** Length of the whitespace-free run at the front of `s`. */
  function WordLength(s: string): (n: nat)
    ensures n <= |s|
    ensures NoSpace(s[..n])
    ensures n < |s| ==> IsSpace(s[n])
    ensures |s| > 0 && !IsSpace(s[0]) ==> n > 0
  {
    if |s| == 0 || IsSpace(s[0]) then 0 else 1 + WordLength(s[1..])
  }

  lemma {:induction false} SqueezeAppend(a: string, b: string)
    ensures Squeeze(a + b) == Squeeze(a) + Squeeze(b)
  {
    if |a| > 0 {
      assert (a + b)[1..] == a[1..] + b;
      SqueezeAppend(a[1..], b);
    } else {
      assert a + b == b;
    }
  }

  lemma {:induction false} SqueezeNoSpace(w: string)
    requires NoSpace(w)
    ensures Squeeze(w) == w
  {
    if |w| > 0 {
      SqueezeNoSpace(w[1..]);
    }
  }

  /** The fields of `s`, in order. Every field is a word, and together they hold
      exactly the non-whitespace characters of `s`. */
  function Split(s: string): (ws: seq<string>)
    ensures forall i | 0 <= i < |ws| :: IsWord(ws[i])
    ensures Concat(ws) == Squeeze(s)
    decreases |s|
  {
    if |s| == 0 then []
    else if IsSpace(s[0]) then Split(s[1..])
    else
      var n := WordLength(s);
      var w, rest := s[..n], Split(s[n..]);
      SqueezeAppendAt(s, n);
      SqueezeNoSpace(w);
      assert ([w] + rest)[0] == w && ([w] + rest)[1..] == rest;
      [w] + rest
  }

  lemma SqueezeAppendAt(s: string, n: nat)
    requires n <= |s|
    ensures Squeeze(s) == Squeeze(s[..n]) + Squeeze(s[n..])
  {
    assert s == s[..n] + s[n..];
    SqueezeAppend(s[..n], s[n..]);
  }

  /** Words joined by single spaces: the command line a list of words stands for. */
  function Unwords(ws: seq<string>): string {
    if |ws| == 0 then ""
    else if |ws| == 1 then ws[0]
    else ws[0] + " " + Unwords(ws[1..])
  }

  lemma {:induction false} WordLengthOfWord(w: string, t: string)
    requires NoSpace(w)
    requires |t| == 0 || IsSpace(t[0])
    ensures WordLength(w + t) == |w|
  {
    if |w| > 0 {
      assert (w + t)[1..] == w[1..] + t;
      WordLengthOfWord(w[1..], t);
    } else {
      assert w + t == t;
    }
  }

  /** Splitting a line of words joined by spaces gives the words back. */
  lemma {:induction false} SplitUnwords(ws: seq<string>)
    requires forall i | 0 <= i < |ws| :: IsWord(ws[i])
    ensures Split(Unwords(ws)) == ws
  {
    if |ws| == 1 {
      var w := ws[0];
      WordLengthOfWord(w, "");
      assert w + "" == w;
      assert w[..|w|] == w && w[|w|..] == "";
    } else if |ws| > 1 {
      var w, u := ws[0], Unwords(ws[1..]);
      var s := w + " " + u;
      assert s == w + (" " + u);
      WordLengthOfWord(w, " " + u);
      assert s[..|w|] == w;
      assert s[|w|..] == " " + u;
      assert (" " + u)[1..] == u;
      SplitUnwords(ws[1..]);
    }
  }

  /** A single word splits into itself. */
  lemma SplitWord(w: string)
    requires IsWord(w)
    ensures Split(w) == [w]
  {
    WordLengthOfWord(w, "");
    assert w + "" == w;
    assert w[..|w|] == w && w[|w|..] == "";
  }

  /** A line of whitespace alone has no fields. */
  lemma {:induction false} SplitBlank(s: string)
    requires forall i | 0 <= i < |s| :: IsSpace(s[i])
    ensures Split(s) == []
    decreases |s|
  {
    if |s| > 0 {
      SplitBlank(s[1..]);
    }
  }

  /** Fields break at every whitespace character: the fields of a line are those of the
      text before any whitespace character followed by those of the text after it. */
  lemma {:induction false} SplitAtSpace(a: string, c: char, b: string)
    requires IsSpace(c)
    ensures Split(a + [c] + b) == Split(a) + Split(b)
    decreases |a|
  {
    var s := a + [c] + b;
    if |a| == 0 {
      assert s == [c] + b;
      assert s[1..] == b;
    } else if IsSpace(a[0]) {
      assert s[1..] == a[1..] + [c] + b;
      SplitAtSpace(a[1..], c, b);
    } else {
      var n := WordLength(a);
      var t := a[n..] + [c] + b;
      assert s == a[..n] + t;
      assert IsSpace(t[0]);
      WordLengthOfWord(a[..n], t);
      assert s[..n] == a[..n] && s[n..] == t;
      SplitAtSpace(a[n..], c, b);
    }
  }

  /** After any leading whitespace, the first field is the word running up to the next
      whitespace character, and the rest of the line supplies the remaining fields. */
  lemma SplitFirstWord(lead: string, w: string, c: char, rest: string)
    requires forall i | 0 <= i < |lead| :: IsSpace(lead[i])
    requires IsWord(w) && IsSpace(c)
    ensures Split(lead + w + [c] + rest) == [w] + Split(rest)
  {
    var tail := w + [c] + rest;
    if |lead| > 0 {
      var init := lead[..|lead| - 1];
      assert lead + w + [c] + rest == init + [lead[|lead| - 1]] + tail;
      SplitAtSpace(init, lead[|lead| - 1], tail);
      SplitBlank(init);
      assert Split(init) + Split(tail) == Split(tail);
    } else {
      assert lead + w + [c] + rest == tail;
    }
    SplitAtSpace(w, c, rest);
    SplitWord(w);
  }
}
