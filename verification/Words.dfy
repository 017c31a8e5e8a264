/** `str.split()` and `" ".join`, and that joining words and splitting again gives the words back. */
module Words {

  /** The characters `str.split()` treats as whitespace. */
  predicate IsSpace(c: char) {
    || '\t' <= c <= '\r' || '\U{001C}' <= c <= ' ' || c == '\U{0085}' || c == '\U{00A0}' || c == '\U{1680}'
    || '\U{2000}' <= c <= '\U{200A}' || c == '\U{2028}' || c == '\U{2029}' || c == '\U{202F}'
    || c == '\U{205F}' || c == '\U{3000}'
  }

  predicate IsWord(w: string) {
    w != "" && forall i :: 0 <= i < |w| ==> !IsSpace(w[i])
  }

  predicate AllWords(ws: seq<string>) {
    forall i :: 0 <= i < |ws| ==> IsWord(ws[i])
  }

  /** How many characters come before the first whitespace. */
  function WordLength(s: string): (n: nat)
    ensures n <= |s|
    ensures s != "" && !IsSpace(s[0]) ==> n >= 1
  {
    if s == "" || IsSpace(s[0]) then 0 else 1 + WordLength(s[1..])
  }

  function Split(s: string): seq<string>
    decreases |s|
  {
    if s == "" then []
    else if IsSpace(s[0]) then Split(s[1..])
    else [s[..WordLength(s)]] + Split(s[WordLength(s)..])
  }

  function Join(ws: seq<string>): string {
    if ws == [] then ""
    else if |ws| == 1 then ws[0]
    else ws[0] + " " + Join(ws[1..])
  }

  lemma {:induction false} WordLengthWord(s: string)
    requires s != "" && !IsSpace(s[0])
    ensures IsWord(s[..WordLength(s)])
  {
    var n := WordLength(s);
    if n > 1 {
      WordLengthWord(s[1..]);
      assert s[1..][..n - 1] == s[..n][1..];
      forall i | 0 <= i < n ensures !IsSpace(s[..n][i]) {
        if i > 0 { assert s[..n][i] == s[1..][..n - 1][i - 1]; }
      }
    }
  }

  /** What `split` returns are words. */
  lemma {:induction false} SplitWords(s: string)
    ensures AllWords(Split(s))
    decreases |s|
  {
    if s != "" {
      if IsSpace(s[0]) {
        SplitWords(s[1..]);
      } else {
        WordLengthWord(s);
        SplitWords(s[WordLength(s)..]);
      }
    }
  }

  lemma {:induction false} WordLengthPrefix(w: string, rest: string)
    requires IsWord(w) && (rest == "" || IsSpace(rest[0]))
    ensures WordLength(w + rest) == |w|
  {
    if |w| == 1 {
      assert (w + rest)[1..] == rest;
    } else {
      assert (w + rest)[1..] == w[1..] + rest;
      WordLengthPrefix(w[1..], rest);
    }
  }

  /** Splitting undoes joining. */
  lemma {:induction false} SplitJoin(ws: seq<string>)
    requires AllWords(ws)
    ensures Split(Join(ws)) == ws
  {
    if |ws| == 1 {
      WordLengthPrefix(ws[0], "");
      assert ws[0] + "" == ws[0];
      assert Split(ws[0][|ws[0]|..]) == [];
      assert ws == [ws[0]];
    } else if |ws| > 1 {
      var w, rest := ws[0], " " + Join(ws[1..]);
      assert Join(ws) == w + rest;
      WordLengthPrefix(w, rest);
      assert (w + rest)[|w|..] == rest && (w + rest)[..|w|] == w;
      assert rest[1..] == Join(ws[1..]);
      SplitJoin(ws[1..]);
    }
  }

  lemma SplitWord(w: string)
    requires IsWord(w)
    ensures Split(w) == [w]
  {
    WordLengthPrefix(w, "");
    assert w + "" == w;
    assert w[|w|..] == "" && w[..|w|] == w;
  }

  lemma SpaceEnds(a: string, c: char, b: string)
    requires IsSpace(c)
    ensures WordLength(a + [c] + b) == WordLength(a)
  {
    if a == "" {
      assert a + [c] + b == [c] + b;
    } else if !IsSpace(a[0]) {
      SpaceEnds(a[1..], c, b);
      assert (a + [c] + b)[1..] == a[1..] + [c] + b;
    }
  }

  /** One turn of `split`. */
  lemma SplitTurn(s: string)
    requires s != ""
    ensures IsSpace(s[0]) ==> Split(s) == Split(s[1..])
    ensures !IsSpace(s[0]) ==> Split(s) == [s[..WordLength(s)]] + Split(s[WordLength(s)..])
  {
  }

  lemma SplitNothing()
    ensures Split("") == []
  {
  }

  /** Any whitespace character separates, and any number of them: with `SplitWord` this says what `split` gives for every text. */
  lemma {:induction false} SplitAtSpace(a: string, c: char, b: string)
    requires IsSpace(c)
    ensures Split(a + [c] + b) == Split(a) + Split(b)
    decreases |a|
  {
    hide Split, WordLength, IsSpace;
    var s := a + [c] + b;
    SplitTurn(s);
    if a == "" {
      assert s == [c] + b && s[1..] == b;
      SplitNothing();
    } else {
      SplitTurn(a);
      if IsSpace(a[0]) {
        SplitAtSpace(a[1..], c, b);
        assert s[1..] == a[1..] + [c] + b;
      } else {
        var n := WordLength(a);
        SpaceEnds(a, c, b);
        SplitAtSpace(a[n..], c, b);
        assert s[n..] == a[n..] + [c] + b && s[..n] == a[..n];
      }
    }
  }

  /** One space between two joined parts, and a single word is itself. */
  lemma {:induction false} JoinParts(a: seq<string>, b: seq<string>)
    requires a != [] && b != []
    ensures Join(a + b) == Join(a) + " " + Join(b)
    ensures |a| == 1 ==> Join(a) == a[0]
  {
    if |a| == 1 {
      assert (a + b)[1..] == b;
    } else {
      JoinParts(a[1..], b);
      assert (a + b)[1..] == a[1..] + b;
    }
  }
}
