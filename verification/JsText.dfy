/** Strings as ECMAScript sees them: white space, `split`, `join`. */
module JsText {
  /** White space and line terminators: what `\s` matches and `String.prototype.trim` removes. */
  predicate White(c: char) {
    c in {'\t', '\n', '\r', ' ', '\U{000B}', '\U{000C}', '\U{00A0}', '\U{1680}', '\U{2028}', '\U{2029}', '\U{202F}',
          '\U{205F}', '\U{3000}', '\U{FEFF}'} || '\U{2000}' <= c <= '\U{200A}'
  }

  /** What `.` does not match in a regular expression. */
  predicate LineTerminator(c: char) { c in {'\n', '\r', '\U{2028}', '\U{2029}'} }

  predicate Blank(s: string) { forall c | c in s :: White(c) }

  function Index(s: string, c: char): (r: nat)
    ensures r <= |s| && (r < |s| ==> s[r] == c) && forall i | 0 <= i < r :: s[i] != c
  {
    if s == "" || s[0] == c then 0 else 1 + Index(s[1..], c)
  }

  function Split(s: string, c: char): (r: seq<string>)
    ensures |r| > 0
    decreases |s|
  {
    var i := Index(s, c);
    if i == |s| then [s] else [s[..i]] + Split(s[i + 1..], c)
  }

  function Join(parts: seq<string>, c: char): string
    requires parts != []
  {
    if |parts| == 1 then parts[0] else parts[0] + [c] + Join(parts[1..], c)
  }

  predicate Free(s: string, c: char) { c !in s }

  lemma IndexOf(a: string, c: char, b: string)
    requires Free(a, c)
    ensures Index(a + [c] + b, c) == |a|
  {
    var s := a + [c] + b;
    assert forall i | 0 <= i < |a| :: s[i] == a[i] && a[i] in a;
    assert s[|a|] == c;
  }

  lemma IndexAfter(a: string, c: char, b: string)
    requires Free(a, c)
    ensures var s := a + ([c] + b); Index(s, c) == |a| && s[..|a|] == a && s[|a| + 1..] == b
  {
    assert a + ([c] + b) == a + [c] + b;
    IndexOf(a, c, b);
  }

  lemma SplitFree(s: string, c: char)
    requires Free(s, c)
    ensures Split(s, c) == [s]
  {
    assert forall i | 0 <= i < |s| :: s[i] in s;
  }

  lemma SplitHead(a: string, c: char, b: string)
    requires Free(a, c)
    ensures Split(a + [c] + b, c) == [a] + Split(b, c)
  {
    IndexOf(a, c, b);
    var s := a + [c] + b;
    assert s[..|a|] == a && s[|a| + 1..] == b;
  }

  lemma Regroup(a: string, b: string, c: string, d: string, e: string)
    ensures a + b + (c + d + e) == (a + b + c) + d + e
  {
  }

  lemma RegroupParts(a: seq<string>, b: seq<string>, c: seq<string>)
    ensures a + (b + c) == (a + b) + c
  {
  }

  /** Splitting at a separator that joins two texts splits each of them. */
  lemma {:induction false} SplitAppend(a: string, c: char, b: string)
    ensures Split(a + [c] + b, c) == Split(a, c) + Split(b, c)
    decreases |a|
  {
    var i := Index(a, c);
    if i == |a| {
      assert Free(a, c);
      SplitFree(a, c);
      SplitHead(a, c, b);
    } else {
      var head, tail := a[..i], a[i + 1..];
      assert Free(head, c);
      assert a == head + [c] + tail;
      hide Split, Free;
      SplitAppend(tail, c, b);
      SplitHead(head, c, tail);
      SplitHead(head, c, tail + [c] + b);
      Regroup(head, [c], tail, [c], b);
      RegroupParts([head], Split(tail, c), Split(b, c));
    }
  }

  function SplitAll(parts: seq<string>, c: char): seq<string> {
    if parts == [] then [] else Split(parts[0], c) + SplitAll(parts[1..], c)
  }

  lemma {:induction false} SplitJoin(parts: seq<string>, c: char)
    requires parts != []
    ensures Split(Join(parts, c), c) == SplitAll(parts, c)
    decreases parts
  {
    if |parts| == 1 {
      assert SplitAll(parts[1..], c) == [];
    } else {
      SplitAppend(parts[0], c, Join(parts[1..], c));
      SplitJoin(parts[1..], c);
    }
  }

  lemma {:induction false} SplitAllFree(parts: seq<string>, c: char)
    requires forall p | p in parts :: Free(p, c)
    ensures SplitAll(parts, c) == parts
    decreases parts
  {
    if parts != [] {
      var first := parts[0];
      assert first in parts;
      SplitFree(first, c);
      SplitAllFree(parts[1..], c);
      assert parts == [first] + parts[1..];
    }
  }

  lemma {:induction false} SplitAllAppend(a: seq<string>, b: seq<string>, c: char)
    ensures SplitAll(a + b, c) == SplitAll(a, c) + SplitAll(b, c)
    decreases a
  {
    if a == [] {
      assert a + b == b;
    } else {
      assert (a + b)[1..] == a[1..] + b;
      SplitAllAppend(a[1..], b, c);
      assert Split(a[0], c) + (SplitAll(a[1..], c) + SplitAll(b, c)) == Split(a[0], c) + SplitAll(a[1..], c) + SplitAll(b, c);
    }
  }

  lemma {:induction false} SplitPieces(s: string, c: char)
    ensures forall p | p in Split(s, c) :: Free(p, c)
    decreases |s|
  {
    var i := Index(s, c);
    if i < |s| {
      SplitPieces(s[i + 1..], c);
      assert Free(s[..i], c);
    } else {
      assert Free(s, c);
    }
  }

  lemma JoinFirst(part: string, parts: seq<string>, c: char)
    ensures Join([part], c) == part && (parts != [] ==> Join([part] + parts, c) == part + [c] + Join(parts, c))
  {
    assert ([part] + parts)[1..] == parts;
  }

  /** The pieces of a text, joined again, are the text. */
  lemma {:induction false} JoinSplit(s: string, c: char)
    ensures Join(Split(s, c), c) == s
    decreases |s|
  {
    hide Join, Index;
    var i := Index(s, c);
    if i < |s| {
      JoinSplit(s[i + 1..], c);
      JoinFirst(s[..i], Split(s[i + 1..], c), c);
      assert s == s[..i] + [c] + s[i + 1..];
    } else {
      JoinFirst(s, [], c);
    }
  }

  // ---- one line ----

  /** Every run of white space becomes one blank; `after` says that a run has just been written. */
  function Collapse(s: string, after: bool): string {
    if s == "" then ""
    else if White(s[0]) then (if after then "" else " ") + Collapse(s[1..], true)
    else [s[0]] + Collapse(s[1..], false)
  }

  function TrimStart(s: string): string {
    if s != "" && White(s[0]) then TrimStart(s[1..]) else s
  }

  function TrimEnd(s: string): string {
    if s != "" && White(s[|s| - 1]) then TrimEnd(s[..|s| - 1]) else s
  }

  function SingleLine(s: string): string { TrimEnd(TrimStart(Collapse(s, false))) }

  lemma {:induction false} CollapsePlain(s: string, after: bool)
    ensures forall c | c in Collapse(s, after) && White(c) :: c == ' '
    decreases s
  {
    if s != "" { CollapsePlain(s[1..], White(s[0])); }
  }

  lemma {:induction false} TrimStartOf(s: string)
    ensures forall c | c in TrimStart(s) :: c in s
    ensures TrimStart(s) != "" ==> !White(TrimStart(s)[0])
    decreases s
  {
    if s != "" && White(s[0]) { TrimStartOf(s[1..]); }
  }

  lemma {:induction false} TrimEndOf(s: string)
    ensures forall c | c in TrimEnd(s) :: c in s
    ensures TrimEnd(s) != "" ==> !White(TrimEnd(s)[|TrimEnd(s)| - 1]) && s != "" && TrimEnd(s)[0] == s[0]
    decreases |s|
  {
    if s != "" && White(s[|s| - 1]) { TrimEndOf(s[..|s| - 1]); }
  }

  /** The only white space left is single blanks between words. */
  lemma SingleLineMeans(s: string)
    ensures forall c | c in SingleLine(s) && White(c) :: c == ' '
    ensures forall c | c in SingleLine(s) :: !LineTerminator(c)
    ensures SingleLine(s) != "" ==> !White(SingleLine(s)[0]) && !White(SingleLine(s)[|SingleLine(s)| - 1])
  {
    CollapsePlain(s, false);
    TrimStartOf(Collapse(s, false));
    TrimEndOf(TrimStart(Collapse(s, false)));
  }

  // ---- words ----

  /** Where the first word of a text that starts with one ends. */
  function WordEnd(s: string): (n: nat)
    ensures n <= |s| && (forall i | 0 <= i < n :: !White(s[i])) && (n < |s| ==> White(s[n]))
  {
    if s == "" || White(s[0]) then 0 else 1 + WordEnd(s[1..])
  }

  /** The words of a text: its longest pieces without white space, in order. */
  function Words(s: string): seq<string>
    decreases |s|
  {
    if s == "" then []
    else if White(s[0]) then Words(s[1..])
    else [s[..WordEnd(s)]] + Words(s[WordEnd(s)..])
  }

  function Glue(words: seq<string>): string { if words == [] then "" else Join(words, ' ') }

  lemma {:induction false} WordsWhole(s: string)
    ensures forall w | w in Words(s) :: w != "" && forall c | c in w :: !White(c)
    ensures Words(s) == [] <==> Blank(s)
    decreases |s|
  {
    if s != "" {
      if White(s[0]) {
        WordsWhole(s[1..]);
        assert s == [s[0]] + s[1..];
      } else {
        WordsWhole(s[WordEnd(s)..]);
      }
    }
  }

  lemma {:induction false} CollapseWord(w: string, rest: string, after: bool)
    requires w != "" && forall c | c in w :: !White(c)
    ensures Collapse(w + rest, after) == w + Collapse(rest, false)
    decreases w
  {
    var s := w + rest;
    assert s[0] == w[0] && w[0] in w && s[1..] == w[1..] + rest;
    if w[1..] == "" {
      assert w == [w[0]] && s[1..] == rest;
    } else {
      assert forall c | c in w[1..] :: c in w;
      CollapseWord(w[1..], rest, false);
      assert w == [w[0]] + w[1..];
    }
  }

  predicate EndsWhite(s: string) { s != "" && White(s[|s| - 1]) }

  lemma WhiteStep(s: string)
    requires s != "" && White(s[0])
    ensures Words(s) == Words(s[1..]) && (Blank(s) <==> Blank(s[1..]))
    ensures EndsWhite(s) <==> s[1..] == "" || EndsWhite(s[1..])
    ensures Collapse(s, true) == Collapse(s[1..], true) && Collapse(s, false) == " " + Collapse(s[1..], true)
  {
    hide White;
    assert s == [s[0]] + s[1..];
    assert "" + Collapse(s[1..], true) == Collapse(s[1..], true);
  }

  lemma WordStep(s: string)
    requires s != "" && !White(s[0])
    ensures var w, rest := s[..WordEnd(s)], s[WordEnd(s)..];
            && w != "" && Words(s) == [w] + Words(rest) && !Blank(s) && (rest != "" ==> White(rest[0]))
            && (EndsWhite(s) <==> rest != "" && EndsWhite(rest))
            && (forall after :: Collapse(s, after) == w + Collapse(rest, false))
  {
    hide White;
    var w, rest := s[..WordEnd(s)], s[WordEnd(s)..];
    assert s == w + rest && s[0] in s && WordEnd(s) > 0;
    forall after ensures Collapse(s, after) == w + Collapse(rest, false) {
      CollapseWord(w, rest, after);
    }
    hide Collapse, Words;
    assert rest == "" ==> s[|s| - 1] == w[|w| - 1];
    assert rest != "" ==> s[|s| - 1] == rest[|rest| - 1];
  }

  lemma WordThen(w: string, words: seq<string>)
    ensures Glue([w] + words) == if words == [] then w else w + " " + Glue(words)
  {
    JoinFirst(w, words, ' ');
    assert w + [' '] == w + " ";
    hide Join;
  }

  function Trail(s: string): string { if EndsWhite(s) && !Blank(s) then " " else "" }

  /** What collapsing writes after white space: the words with single blanks, and one more where the text ends in white space. */
  lemma {:induction false} CollapsedAfter(s: string)
    ensures Collapse(s, true) == Glue(Words(s)) + Trail(s)
    decreases |s|
  {
    hide White, Blank, Words, Collapse, Glue, EndsWhite;
    EmptyText();
    if s == "" {
    } else if White(s[0]) {
      WhiteStep(s);
      CollapsedAfter(s[1..]);
    } else {
      WordStep(s);
      var w, rest := s[..WordEnd(s)], s[WordEnd(s)..];
      if rest == "" {
        WordThen(w, []);
        assert w + "" == w && [w] + [] == [w];
      } else {
        WhiteStep(rest);
        CollapsedAfter(rest[1..]);
        WordsWhole(rest[1..]);
        WordThen(w, Words(rest[1..]));
        if Blank(rest[1..]) { BlankEnds(rest[1..]); }
        assert w + (" " + Glue([])) == w + " ";
        assert w + (" " + (Glue(Words(rest[1..])) + Trail(rest[1..]))) == w + " " + Glue(Words(rest[1..])) + Trail(rest[1..]);
      }
    }
  }

  lemma BlankEnds(s: string)
    requires Blank(s)
    ensures s == "" || EndsWhite(s)
  {
    hide White;
    assert s != "" ==> s[|s| - 1] in s;
  }

  lemma BlankIsWhite()
    ensures White(' ')
  {
  }

  lemma EmptyText()
    ensures Words("") == [] && Collapse("", true) == "" && Collapse("", false) == "" && Glue([]) == "" && Blank("")
    ensures !EndsWhite("")
  {
  }

  lemma {:induction false} GlueEnds(words: seq<string>)
    requires words != [] && forall w | w in words :: w != "" && forall c | c in w :: !White(c)
    ensures Glue(words) != "" && !White(Glue(words)[0]) && !White(Glue(words)[|Glue(words)| - 1])
    decreases words
  {
    hide White, Glue;
    var w := words[0];
    assert w in words && w[0] in w && w[|w| - 1] in w;
    assert words == [w] + words[1..];
    WordThen(w, words[1..]);
    if words[1..] != [] {
      assert forall x | x in words[1..] :: x in words;
      GlueEnds(words[1..]);
    }
  }

  lemma TrimmedEnds(g: string, before: string, after: string)
    requires before in {"", " "} && after in {"", " "} && (g == "" ==> after == "")
    requires g != "" ==> !White(g[0]) && !White(g[|g| - 1])
    ensures TrimEnd(TrimStart(before + (g + after))) == g
  {
    hide White;
    BlankIsWhite();
    var tail := g + after;
    assert (before + tail)[|before|..] == tail;
    assert TrimStart(tail) == tail;
    assert before == " " ==> (before + tail)[0] == ' ' && (before + tail)[1..] == tail;
    assert TrimEnd(g) == g;
    if after == " " {
      assert tail[|tail| - 1] == ' ' && tail[..|tail| - 1] == g;
    } else {
      assert tail == g;
    }
    assert before == "" ==> before + tail == tail;
  }

  /** Made one line, a text is its words with one blank between them. */
  lemma SingleLineWords(s: string)
    ensures SingleLine(s) == Glue(Words(s))
  {
    hide White, Words, Collapse, Glue, EndsWhite, TrimStart, TrimEnd;
    EmptyText();
    WordsWhole(s);
    var g := Glue(Words(s));
    CollapsedAfter(s);
    if s != "" && White(s[0]) {
      WhiteStep(s);
      CollapsedAfter(s[1..]);
    } else if s != "" {
      WordStep(s);
    }
    if Words(s) != [] { GlueEnds(Words(s)); }
    var before := if s != "" && White(s[0]) then " " else "";
    assert "" + (g + Trail(s)) == g + Trail(s);
    assert Collapse(s, false) == before + (g + Trail(s));
    TrimmedEnds(g, before, Trail(s));
  }
}
