/**
 * Reading the remote model's answer: the whole text as JSON, else the first
 * `{...}` fragment carrying a `"move": "<uci>"` field, else the first bare
 * long-algebraic token. The two regular expressions are written out as scans
 * that find the same leftmost match, and JSON.parse is a parameter.
 */
module LlmResponse {
  import opened Text

  /**
   * The answer as the engine reads it. `move` is None when the field is missing
   * or not a string; `reasoning` is "" when it is missing or falsy.
   */
  datatype Reply = Reply(move: Option<string>, reasoning: string)

  /** JSON.parse as far as the engine looks at the result: None when it throws. */
  type JsonParser = string -> Option<Reply>

  predicate IsFileChar(c: char) { 'a' <= c <= 'h' }
  predicate IsRankChar(c: char) { '1' <= c <= '8' }
  predicate IsPromotionChar(c: char) { c == 'q' || c == 'r' || c == 'b' || c == 'n' }

  /** The `\w` class. */
  predicate IsWordChar(c: char)
  {
    ('a' <= c <= 'z') || ('A' <= c <= 'Z') || ('0' <= c <= '9') || c == '_'
  }

  /** `[a-h][1-8][a-h][1-8]` at position i. */
  predicate SquaresAt(s: string, i: nat)
  {
    i + 4 <= |s| && IsFileChar(s[i]) && IsRankChar(s[i + 1]) && IsFileChar(s[i + 2]) && IsRankChar(s[i + 3])
  }

  /** A move in long algebraic notation: two squares and an optional promotion piece. */
  predicate IsUci(m: string)
  {
    (|m| == 4 || |m| == 5) && SquaresAt(m, 0) && (|m| == 5 ==> IsPromotionChar(m[4]))
  }

  /**
   * Length of a match of `\b([a-h][1-8][a-h][1-8][qrbn]?)\b` at i. The optional
   * piece is taken greedily; giving it back cannot help, since a word character
   * would then follow the rank digit and there would be no boundary.
   */
  function TokenAt(s: string, i: nat): (n: Option<nat>)
    ensures n.Some? ==> i + n.value <= |s| && IsUci(s[i..i + n.value])
  {
    if !(SquaresAt(s, i) && (i == 0 || !IsWordChar(s[i - 1]))) then None
    else if i + 4 < |s| && IsPromotionChar(s[i + 4]) then
      if i + 5 == |s| || !IsWordChar(s[i + 5]) then Some(5) else None
    else if i + 4 == |s| || !IsWordChar(s[i + 4]) then Some(4)
    else None
  }

  /** The leftmost bare token at or after i. */
  function FindToken(s: string, i: nat): (t: Option<string>)
    requires i <= |s|
    ensures t.Some? ==> IsUci(t.value) && Contains(s, t.value)
    decreases |s| - i
  {
    if i == |s| then None
    else match TokenAt(s, i)
      case Some(n) =>
        assert OccursAt(s, s[i..i + n], i);
        Some(s[i..i + n])
      case None => FindToken(s, i + 1)
  }

  /** No token match starts in [i, j). */
  predicate NoTokenBetween(s: string, i: nat, j: nat)
  {
    forall k :: i <= k < j ==> TokenAt(s, k).None?
  }

  /**
   * The search finds the leftmost match: nothing exactly when no position holds
   * one, and otherwise the match at a position before which none starts.
   */
  lemma {:induction false} FindTokenLeftmost(s: string, i: nat)
    requires i <= |s|
    ensures FindToken(s, i).None? <==> NoTokenBetween(s, i, |s|)
    ensures FindToken(s, i).Some? ==>
      exists j :: i <= j < |s| && TokenAt(s, j).Some? && FindToken(s, i).value == s[j..j + TokenAt(s, j).value]
                  && NoTokenBetween(s, i, j)
    decreases |s| - i
  {
    if i < |s| && TokenAt(s, i).None? {
      FindTokenLeftmost(s, i + 1);
      if FindToken(s, i + 1).Some? {
        var j :| i + 1 <= j < |s| && TokenAt(s, j).Some? && FindToken(s, i + 1).value == s[j..j + TokenAt(s, j).value]
                 && NoTokenBetween(s, i + 1, j);
        assert NoTokenBetween(s, i, j);
      }
    }
  }

  /** A reply that is exactly a move is found whole. */
  lemma BareMoveFound(m: string)
    requires IsUci(m)
    ensures FindToken(m, 0) == Some(m)
  {
    assert TokenAt(m, 0) == Some(|m|);
    assert m[0..|m|] == m;
  }

  /** The closing `"` after the move at c: `[qrbn]?"`, taking the piece when the quote follows it. */
  predicate QuotedUciAt(seg: string, c: nat)
  {
    SquaresAt(seg, c)
    && ((c + 4 < |seg| && seg[c + 4] == '"')
        || (c + 5 < |seg| && IsPromotionChar(seg[c + 4]) && seg[c + 5] == '"'))
  }

  /** `"move"\s*:\s*"<uci>"` at p. */
  predicate MoveFieldAt(seg: string, p: nat)
  {
    p + 6 <= |seg| && seg[p..p + 6] == "\"move\""
    && var a := p + 6 + SpaceRun(seg, p + 6);
       a < |seg| && seg[a] == ':'
       && var b := a + 1 + SpaceRun(seg, a + 1);
          b < |seg| && seg[b] == '"' && QuotedUciAt(seg, b + 1)
  }

  /** Some move field at or after p. */
  predicate HasMoveField(seg: string, p: nat)
    decreases |seg| - p
  {
    p < |seg| && (MoveFieldAt(seg, p) || HasMoveField(seg, p + 1))
  }

  /** The first occurrence of c at or after `from`. */
  function IndexOf(s: string, c: char, from: nat): (j: Option<nat>)
    ensures j.Some? ==> from <= j.value < |s| && s[j.value] == c
                        && forall k :: from <= k < j.value ==> s[k] != c
    ensures j.None? ==> forall k :: from <= k < |s| ==> s[k] != c
    decreases |s| - from
  {
    if from >= |s| then None
    else if s[from] == c then Some(from)
    else IndexOf(s, c, from + 1)
  }

  /**
   * The leftmost match of `\{[^}]*"move"\s*:\s*"(<uci>)"[^}]*\}` at or after i.
   * Neither `[^}]*` can cross a `}`, so a match from an opening brace ends at the
   * first closing brace after it and must hold the move field in between.
   */
  function FindFragment(s: string, i: nat): (f: Option<string>)
    requires i <= |s|
    decreases |s| - i
  {
    if i == |s| then None
    else if FragmentAt(s, i) then Some(s[i..FragmentClose(s, i) + 1])
    else FindFragment(s, i + 1)
  }

  /** No fragment match starts in [i, j). */
  predicate NoFragmentBetween(s: string, i: nat, j: nat)
  {
    forall k :: i <= k < j ==> !FragmentAt(s, k)
  }

  /** The search finds nothing exactly when no position starts a fragment. */
  lemma {:induction false} FindFragmentNone(s: string, i: nat)
    requires i <= |s|
    ensures FindFragment(s, i).None? <==> NoFragmentBetween(s, i, |s|)
    decreases |s| - i
  {
    if i < |s| && !FragmentAt(s, i) {
      FindFragmentNone(s, i + 1);
    }
  }

  /**
   * Where the fragment the search finds starts: the leftmost position that
   * starts one, and the fragment runs from there to its closing brace.
   */
  function FragmentStart(s: string, i: nat): (j: nat)
    requires i <= |s| && FindFragment(s, i).Some?
    ensures i <= j < |s| && FragmentAt(s, j) && NoFragmentBetween(s, i, j)
    decreases |s| - i
  {
    if FragmentAt(s, i) then i
    else
      var j := FragmentStart(s, i + 1);
      assert NoFragmentBetween(s, i, j);
      j
  }

  /** The fragment found runs from its start to the first closing brace after it. */
  lemma {:induction false} FragmentFromStart(s: string, i: nat)
    requires i <= |s| && FindFragment(s, i).Some?
    ensures var j := FragmentStart(s, i); FindFragment(s, i) == Some(s[j..FragmentClose(s, j) + 1])
    decreases |s| - i
  {
    if !FragmentAt(s, i) {
      FragmentFromStart(s, i + 1);
    }
  }

  /** A fragment found occurs in the text, opens with a brace and closes at the first closing brace after it. */
  lemma FoundFragmentBraced(s: string, i: nat)
    requires i <= |s| && FindFragment(s, i).Some?
    ensures Braced(s, FindFragment(s, i).value)
  {
    var j := FragmentStart(s, i);
    FragmentFromStart(s, i);
    BracedShape(s, j, FragmentClose(s, j));
  }

  /**
   * A match of the fragment pattern starts at j: an opening brace, a closing
   * brace after it, and the move field between them.
   */
  predicate FragmentAt(s: string, j: nat)
  {
    j < |s| && s[j] == '{' && IndexOf(s, '}', j + 1).Some?
    && HasMoveField(s[j + 1..IndexOf(s, '}', j + 1).value], 0)
  }

  /** Where a fragment starting at j closes: the first closing brace after it. */
  function FragmentClose(s: string, j: nat): (c: nat)
    requires FragmentAt(s, j)
    ensures j < c < |s| && s[c] == '}' && forall k :: j + 1 <= k < c ==> s[k] != '}'
  {
    IndexOf(s, '}', j + 1).value
  }

  /** `f` occurs in `s`, opens with a brace and closes at its first closing brace. */
  predicate Braced(s: string, f: string)
  {
    |f| >= 2 && f[0] == '{' && f[|f| - 1] == '}' && '}' !in f[..|f| - 1] && Contains(s, f)
  }

  /** The text from an opening brace to the first closing brace after it is a braced fragment of the text. */
  lemma BracedShape(s: string, i: nat, close: nat)
    requires i < close < |s| && s[i] == '{' && s[close] == '}'
    requires forall k :: i + 1 <= k < close ==> s[k] != '}'
    ensures Braced(s, s[i..close + 1])
  {
    var f := s[i..close + 1];
    assert OccursAt(s, f, i);
    assert f[..|f| - 1] == s[i..close];
    assert forall k :: 0 <= k < |f| - 1 ==> f[k] == s[i + k];
  }

  /** Stage one applies: the trimmed text parses and has a non-empty string `move`. */
  predicate WholeTextIsReply(text: string, parse: JsonParser)
  {
    var whole := parse(Trim(text));
    whole.Some? && whole.value.move.Some? && whole.value.move.value != ""
  }

  /** Stage two applies: a fragment is found and parses. */
  predicate FragmentIsReply(text: string, parse: JsonParser)
  {
    var fragment := FindFragment(text, 0);
    fragment.Some? && parse(fragment.value).Some?
  }

  /** `parseResponse`: the three stages in order. */
  function ParseResponse(text: string, parse: JsonParser): Option<Reply>
  {
    if WholeTextIsReply(text, parse) then parse(Trim(text))
    else if FragmentIsReply(text, parse) then parse(FindFragment(text, 0).value)
    else match FindToken(text, 0)
      case Some(t) => Some(Reply(Some(t), text))
      case None => None
  }

  /**
   * The cascade: the whole text wins when it is a reply, then the fragment; the
   * bare-token stage gives the token as the move and the whole text as the
   * reasoning, and nothing is found only when all three stages fail.
   */
  lemma ParseResponseStages(text: string, parse: JsonParser)
    ensures var r := ParseResponse(text, parse);
      && (WholeTextIsReply(text, parse) ==> r == parse(Trim(text)))
      && (!WholeTextIsReply(text, parse) && FragmentIsReply(text, parse)
          ==> r == parse(FindFragment(text, 0).value))
      && (!WholeTextIsReply(text, parse) && !FragmentIsReply(text, parse) && r.Some?
          ==> r.value.reasoning == text && r.value.move.Some? && IsUci(r.value.move.value)
              && Contains(text, r.value.move.value))
      && (r.None? <==> !WholeTextIsReply(text, parse) && !FragmentIsReply(text, parse) && FindToken(text, 0).None?)
  {
  }

  /** A reply that is a bare move, and not JSON, is read as that move with itself as the reasoning. */
  lemma BareMoveReply(m: string, parse: JsonParser)
    requires IsUci(m) && parse(Trim(m)).None?
    ensures ParseResponse(m, parse) == Some(Reply(Some(m), m))
  {
    assert FindToken(m, 0) == Some(m) by {
      BareMoveFound(m);
    }
    assert FindFragment(m, 0).None? by {
      assert forall k :: 0 <= k < |m| ==> m[k] != '{';
      NoBraceNoFragment(m, 0);
    }
  }

  lemma {:induction false} NoBraceNoFragment(s: string, i: nat)
    requires i <= |s| && '{' !in s
    ensures FindFragment(s, i).None?
    decreases |s| - i
  {
    if i < |s| {
      NoBraceNoFragment(s, i + 1);
    }
  }

  /** The parts of a move handed to the rules engine: squares at 0-1 and 2-3, a piece at 4 when longer. */
  datatype MoveParts = MoveParts(from: string, to: string, promotion: Option<char>)

  /** `slice(0, 2)`, `slice(2, 4)` and the fifth character when there is one. */
  function Decompose(m: string): MoveParts
  {
    var from := if |m| >= 2 then m[..2] else m;
    var to := if |m| >= 4 then m[2..4] else if |m| > 2 then m[2..] else "";
    MoveParts(from, to, if |m| > 4 then Some(m[4]) else None)
  }

  /** The parts are exactly the three slices the engine takes. */
  lemma DecomposeSlices(m: string)
    ensures Decompose(m).from == Slice(m, 0, 2) && Decompose(m).to == Slice(m, 2, 4)
    ensures Decompose(m).promotion.Some? <==> |m| > 4
  {
  }

  /** `m.from + m.to + (m.promotion || "")`, how the legal list spells a move. */
  function Spell(p: MoveParts): string
  {
    p.from + p.to + (if p.promotion.Some? then [p.promotion.value] else "")
  }

  /** Decomposing a well-formed move and spelling it again gives it back. */
  lemma DecomposeSpell(m: string)
    requires IsUci(m)
    ensures Spell(Decompose(m)) == m
  {
    if |m| == 5 {
      assert m == m[..2] + m[2..4] + [m[4]];
    } else {
      assert m == m[..2] + m[2..4];
    }
  }
}
