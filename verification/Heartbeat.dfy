/** `classify_heartbeat_response`: deleting the sentinel from a response, and why that is stable. */
module Heartbeat {
  import opened Options
  import opened Sequences
  import opened WhiteSpace

  /** `\w`, and which characters match a letter of the pattern when case is ignored. */
  datatype Alphabet = Alphabet(word: char -> bool, same: (char, char) -> bool)

  const SENTINEL := "HEARTBEAT_OK"
  const LENGTH := 12

  predicate IsMarkup(c: char) {
    c == '<' || c == '>' || c == '/' || c == '*' || c == '!' || c == '.'
  }

  /** What the Unicode tables are needed for: the sentinel consists of word characters, white space
      and the markup around the sentinel do not. */
  ghost predicate Sane(a: Alphabet) {
    && (forall c, k :: 0 <= k < LENGTH && a.same(c, SENTINEL[k]) ==> a.word(c))
    && (forall c :: IsMarkup(c) || IsSpace(c) ==> !a.word(c))
  }

  // ---------------------------------------------------------------- the pattern, with backtracking

  /** Not before a word character. */
  predicate Ends(a: Alphabet, s: string, p: nat) {
    p >= |s| || !a.word(s[p])
  }

  /** Not after a word character. */
  predicate Begins(a: Alphabet, s: string, p: nat) {
    p == 0 || p > |s| || !a.word(s[p - 1])
  }

  predicate Core(a: Alphabet, s: string, p: nat) {
    p + LENGTH <= |s| && forall k :: 0 <= k < LENGTH ==> a.same(s[p + k], SENTINEL[k])
  }

  predicate Literal(a: Alphabet, s: string, p: nat, text: string): (there: bool)
    ensures there ==> p + |text| <= |s|
    ensures there && text != "" && IsMarkup(text[0]) ==> s[p] == text[0]
    ensures there && text != "" && IsMarkup(text[|text| - 1]) ==> s[p + |text| - 1] == text[|text| - 1]
  {
    p + |text| <= |s|
    && forall k :: 0 <= k < |text| ==> if IsMarkup(text[k]) then s[p + k] == text[k] else a.same(s[p + k], text[k])
  }

  /** A greedy option: the longer way if it leads anywhere, else the shorter one. */
  function Prefer(longer: Option<nat>, shorter: Option<nat>): Option<nat> {
    if longer.Some? then longer else shorter
  }

  /** `[!.]*(?![\w])` */
  function Bangs(a: Alphabet, s: string, p: nat): (e: Option<nat>)
    requires p <= |s|
    ensures e.Some? ==> p <= e.value <= |s| && Ends(a, s, e.value)
    ensures Ends(a, s, p) ==> e.Some?
    ensures e.Some? ==> Ends(a, s, p) || (s[p] == '!' || s[p] == '.')
    decreases |s| - p
  {
    Prefer(if p < |s| && (s[p] == '!' || s[p] == '.') then Bangs(a, s, p + 1) else None,
           if Ends(a, s, p) then Some(p) else None)
  }

  /** `(?:</b>)?` and on */
  function Closing(a: Alphabet, s: string, p: nat): (e: Option<nat>)
    requires p <= |s|
    ensures e.Some? ==> p <= e.value <= |s| && Ends(a, s, e.value)
    ensures Ends(a, s, p) ==> e.Some?
    ensures e.Some? ==> Ends(a, s, p) || IsMarkup(s[p])
  {
    Prefer(if Literal(a, s, p, "</b>") then Bangs(a, s, p + 4) else None, Bangs(a, s, p))
  }

  /** `(?:\*\*)?` and on */
  function Stars(a: Alphabet, s: string, p: nat): (e: Option<nat>)
    requires p <= |s|
    ensures e.Some? ==> p <= e.value <= |s| && Ends(a, s, e.value)
    ensures Ends(a, s, p) ==> e.Some?
    ensures e.Some? ==> Ends(a, s, p) || IsMarkup(s[p])
  {
    Prefer(if Literal(a, s, p, "**") then Closing(a, s, p + 2) else None, Closing(a, s, p))
  }

  function Word(a: Alphabet, s: string, p: nat): Option<nat>
    requires p <= |s|
  {
    if Core(a, s, p) then Stars(a, s, p + LENGTH) else None
  }

  function LeadingStars(a: Alphabet, s: string, p: nat): Option<nat>
    requires p <= |s|
  {
    Prefer(if Literal(a, s, p, "**") then Word(a, s, p + 2) else None, Word(a, s, p))
  }

  function Opening(a: Alphabet, s: string, p: nat): Option<nat>
    requires p <= |s|
  {
    Prefer(if Literal(a, s, p, "<b>") then LeadingStars(a, s, p + 3) else None, LeadingStars(a, s, p))
  }

  /** Where a match that begins here ends. */
  function MatchAt(a: Alphabet, s: string, p: nat): Option<nat>
    requires p <= |s|
  {
    if Begins(a, s, p) then Opening(a, s, p) else None
  }

  /** The sentinel standing by itself: what the pattern is about. */
  predicate Delimited(a: Alphabet, s: string, p: nat) {
    Core(a, s, p) && Begins(a, s, p) && Ends(a, s, p + LENGTH)
  }

  ghost predicate Within(a: Alphabet, s: string, p: nat, e: nat) {
    exists q :: p <= q && q + LENGTH <= e <= |s| && Delimited(a, s, q)
  }

  lemma WordIsDelimited(a: Alphabet, s: string, p: nat)
    requires Sane(a) && p <= |s| && Begins(a, s, p) && Word(a, s, p).Some?
    ensures Delimited(a, s, p) && Within(a, s, p, Word(a, s, p).value)
    ensures Ends(a, s, Word(a, s, p).value)
  {
    assert Delimited(a, s, p);
  }

  lemma StarsAreDelimiters(a: Alphabet, s: string, p: nat)
    requires Sane(a) && p <= |s| && Begins(a, s, p) && LeadingStars(a, s, p).Some?
    ensures Within(a, s, p, LeadingStars(a, s, p).value)
    ensures Ends(a, s, LeadingStars(a, s, p).value)
  {
    if Literal(a, s, p, "**") && Word(a, s, p + 2).Some? {
      WordIsDelimited(a, s, p + 2);
    } else {
      WordIsDelimited(a, s, p);
    }
  }

  /** Every match holds a delimited sentinel and does not end inside a word. */
  lemma MatchHoldsSentinel(a: Alphabet, s: string, p: nat)
    requires Sane(a) && p <= |s| && MatchAt(a, s, p).Some?
    ensures Within(a, s, p, MatchAt(a, s, p).value)
    ensures Ends(a, s, MatchAt(a, s, p).value)
  {
    if Literal(a, s, p, "<b>") && LeadingStars(a, s, p + 3).Some? {
      StarsAreDelimiters(a, s, p + 3);
    } else {
      StarsAreDelimiters(a, s, p);
    }
  }

  /** ... and every delimited sentinel is matched, whatever the greedy options run into. */
  lemma SentinelIsMatched(a: Alphabet, s: string, p: nat)
    requires Sane(a) && Delimited(a, s, p)
    ensures MatchAt(a, s, p).Some?
  {
    assert a.same(s[p + 0], SENTINEL[0]) && a.word(s[p]);
    assert Word(a, s, p).Some?;
    assert LeadingStars(a, s, p).Some?;
  }

  // ---------------------------------------------------------------- the pattern, read off as a language

  predicate BangsTo(a: Alphabet, s: string, p: nat, e: nat) {
    p <= e <= |s| && (forall k :: p <= k < e ==> s[k] == '!' || s[k] == '.') && Ends(a, s, e)
  }

  predicate ClosingTo(a: Alphabet, s: string, p: nat, e: nat) {
    BangsTo(a, s, p, e) || (Literal(a, s, p, "</b>") && BangsTo(a, s, p + 4, e))
  }

  predicate StarsTo(a: Alphabet, s: string, p: nat, e: nat) {
    ClosingTo(a, s, p, e) || (Literal(a, s, p, "**") && ClosingTo(a, s, p + 2, e))
  }

  predicate WordTo(a: Alphabet, s: string, p: nat, e: nat) {
    Core(a, s, p) && StarsTo(a, s, p + LENGTH, e)
  }

  predicate LeadingStarsTo(a: Alphabet, s: string, p: nat, e: nat) {
    WordTo(a, s, p, e) || (Literal(a, s, p, "**") && WordTo(a, s, p + 2, e))
  }

  /** `s[p..e]` is a sentinel with such markup around it, each part there or not, and stands by itself. */
  predicate Phrase(a: Alphabet, s: string, p: nat, e: nat) {
    Begins(a, s, p)
    && (LeadingStarsTo(a, s, p, e) || (Literal(a, s, p, "<b>") && LeadingStarsTo(a, s, p + 3, e)))
  }

  lemma {:induction false} LongestBangs(a: Alphabet, s: string, p: nat, e: nat)
    requires p <= |s|
    ensures Bangs(a, s, p).Some? ==> BangsTo(a, s, p, Bangs(a, s, p).value)
    ensures BangsTo(a, s, p, e) ==> Bangs(a, s, p).Some? && e <= Bangs(a, s, p).value
    decreases |s| - p
  {
    if p < |s| && (s[p] == '!' || s[p] == '.') {
      LongestBangs(a, s, p + 1, if e > p then e else p + 1);
    }
  }

  lemma LongestClosing(a: Alphabet, s: string, p: nat, e: nat)
    requires Sane(a) && p <= |s|
    ensures Closing(a, s, p).Some? ==> ClosingTo(a, s, p, Closing(a, s, p).value)
    ensures ClosingTo(a, s, p, e) ==> Closing(a, s, p).Some? && e <= Closing(a, s, p).value
  {
    LongestBangs(a, s, p, e);
    if Literal(a, s, p, "</b>") {
      LongestBangs(a, s, p + 4, e);
      assert s[p] == '<';
    }
  }

  lemma LongestStars(a: Alphabet, s: string, p: nat, e: nat)
    requires Sane(a) && p <= |s|
    ensures Stars(a, s, p).Some? ==> StarsTo(a, s, p, Stars(a, s, p).value)
    ensures StarsTo(a, s, p, e) ==> Stars(a, s, p).Some? && e <= Stars(a, s, p).value
  {
    LongestClosing(a, s, p, e);
    if Literal(a, s, p, "**") {
      LongestClosing(a, s, p + 2, e);
      assert s[p] == '*';
    }
  }

  lemma LongestWord(a: Alphabet, s: string, p: nat, e: nat)
    requires Sane(a) && p <= |s|
    ensures Word(a, s, p).Some? ==> WordTo(a, s, p, Word(a, s, p).value)
    ensures WordTo(a, s, p, e) ==> Word(a, s, p).Some? && e <= Word(a, s, p).value
  {
    if Core(a, s, p) {
      LongestStars(a, s, p + LENGTH, e);
    }
  }

  lemma MarkupIsNoSentinel(a: Alphabet, s: string, p: nat)
    requires Sane(a) && p < |s| && IsMarkup(s[p])
    ensures !Core(a, s, p)
  {
    assert !a.same(s[p + 0], SENTINEL[0]);
  }

  lemma LongestLeadingStars(a: Alphabet, s: string, p: nat, e: nat)
    requires Sane(a) && p <= |s|
    ensures LeadingStars(a, s, p).Some? ==> LeadingStarsTo(a, s, p, LeadingStars(a, s, p).value)
    ensures LeadingStarsTo(a, s, p, e) ==> LeadingStars(a, s, p).Some? && e <= LeadingStars(a, s, p).value
  {
    LongestWord(a, s, p, e);
    if Literal(a, s, p, "**") {
      LongestWord(a, s, p + 2, e);
      MarkupIsNoSentinel(a, s, p);
    }
  }

  /** With all its greedy options and their backtracking, the pattern matches the longest phrase. */
  lemma LongestPhrase(a: Alphabet, s: string, p: nat, e: nat)
    requires Sane(a) && p <= |s|
    ensures MatchAt(a, s, p).Some? ==> Phrase(a, s, p, MatchAt(a, s, p).value)
    ensures Phrase(a, s, p, e) ==> MatchAt(a, s, p).Some? && e <= MatchAt(a, s, p).value
  {
    LongestLeadingStars(a, s, p, e);
    if Literal(a, s, p, "<b>") {
      LongestLeadingStars(a, s, p + 3, e);
      MarkupIsNoSentinel(a, s, p);
      assert !Literal(a, s, p, "**");
    }
  }

  // ---------------------------------------------------------------- search and deletion

  datatype Match = Match(from: nat, to: nat)

  /** `pattern.search(s, from)`: the leftmost match. */
  function Search(a: Alphabet, s: string, from: nat): (m: Option<Match>)
    requires from <= |s|
    ensures m.Some? ==> from <= m.value.from <= |s| && MatchAt(a, s, m.value.from) == Some(m.value.to)
    ensures m.Some? ==> forall p :: from <= p < m.value.from ==> MatchAt(a, s, p).None?
    ensures m.None? ==> forall p :: from <= p <= |s| ==> MatchAt(a, s, p).None?
    decreases |s| - from
  {
    if MatchAt(a, s, from).Some? then Some(Match(from, MatchAt(a, s, from).value))
    else if from == |s| then None
    else Search(a, s, from + 1)
  }

  lemma WordAdvances(a: Alphabet, s: string, p: nat)
    requires p <= |s| && MatchAt(a, s, p).Some?
    ensures p + LENGTH <= MatchAt(a, s, p).value <= |s|
  {
  }

  /** `pattern.sub("", s)` from some position on. */
  function Sub(a: Alphabet, s: string, from: nat): string
    requires from <= |s|
    decreases |s| - from
  {
    var m := Search(a, s, from);
    if m.None? then s[from..]
    else
      WordAdvances(a, s, m.value.from);
      s[from..m.value.from] + Sub(a, s, m.value.to)
  }

  ghost predicate NoSentinel(a: Alphabet, s: string) {
    forall p :: !Delimited(a, s, p)
  }

  lemma NoSentinelIff(a: Alphabet, s: string)
    requires Sane(a)
    ensures NoSentinel(a, s) <==> Search(a, s, 0).None?
  {
    var m := Search(a, s, 0);
    if m.Some? {
      MatchHoldsSentinel(a, s, m.value.from);
    } else {
      forall p
        ensures !Delimited(a, s, p)
      {
        if Delimited(a, s, p) {
          SentinelIsMatched(a, s, p);
        }
      }
    }
  }

  /** What is kept does not end inside a word. */
  predicate Closed(a: Alphabet, s: string) {
    s == "" || !a.word(s[|s| - 1])
  }

  lemma WordsThroughout(a: Alphabet, s: string, p: nat)
    requires Sane(a) && Core(a, s, p)
    ensures forall k :: p <= k < p + LENGTH ==> a.word(s[k])
  {
    forall k | p <= k < p + LENGTH
      ensures a.word(s[k])
    {
      assert a.same(s[p + (k - p)], SENTINEL[k - p]);
    }
  }

  /** A sentinel consists of word characters only, so none begins in a piece that is closed. */
  lemma NoneBeforeTheSeam(a: Alphabet, kept: string, more: string, p: nat)
    requires Sane(a) && NoSentinel(a, kept) && Closed(a, kept)
    requires Delimited(a, kept + more, p)
    ensures p >= |kept|
  {
    var t := kept + more;
    WordsThroughout(a, t, p);
    assert forall k :: 0 <= k < |kept| ==> t[k] == kept[k];
    if p + LENGTH < |kept| {
      assert Delimited(a, kept, p);
    }
    if kept != "" {
      assert t[|kept| - 1] == kept[|kept| - 1];
    }
  }

  /** ... and one that lies after the seam was delimited before anything was deleted. */
  lemma AfterTheSeam(a: Alphabet, kept: string, s: string, from: nat, to: nat, p: nat)
    requires Sane(a)
    requires from <= to <= |s|
    requires (from == 0 && kept == "") || Ends(a, s, from)
    requires to == |s| || Begins(a, s, to)
    requires p >= |kept| && Delimited(a, kept + s[from..to], p)
    ensures from + (p - |kept|) + LENGTH <= to
    ensures Delimited(a, s, from + (p - |kept|))
  {
    var t := kept + s[from..to];
    var q := from + (p - |kept|);
    assert forall k :: |kept| <= k < |t| ==> t[k] == s[from + (k - |kept|)];
    forall k | 0 <= k < LENGTH
      ensures a.same(s[q + k], SENTINEL[k])
    {
      assert t[p + k] == s[q + k];
    }
    assert Core(a, s, q);
    WordsThroughout(a, s, q);
    assert q > from ==> t[p - 1] == s[q - 1];
    assert q + LENGTH < to ==> t[p + LENGTH] == s[q + LENGTH];
    assert s[q + 0] == s[q];
  }

  lemma PieceIsClean(a: Alphabet, kept: string, s: string, from: nat, to: nat)
    requires Sane(a) && NoSentinel(a, kept) && Closed(a, kept)
    requires from <= to <= |s|
    requires (from == 0 && kept == "") || Ends(a, s, from)
    requires to == |s| || Begins(a, s, to)
    requires forall p :: from <= p && p + LENGTH <= to ==> MatchAt(a, s, p).None?
    ensures NoSentinel(a, kept + s[from..to])
  {
    forall p: nat
      ensures !Delimited(a, kept + s[from..to], p)
    {
      if Delimited(a, kept + s[from..to], p) {
        NoneBeforeTheSeam(a, kept, s[from..to], p);
        AfterTheSeam(a, kept, s, from, to, p);
        SentinelIsMatched(a, s, from + (p - |kept|));
      }
    }
  }

  lemma PieceStaysClosed(a: Alphabet, kept: string, s: string, from: nat, to: nat)
    requires Closed(a, kept) && from <= to <= |s| && Begins(a, s, to)
    ensures Closed(a, kept + s[from..to])
  {
  }

  /** No deletion joins text into a sentinel that was not there. */
  lemma {:induction false} DeletionLeavesNone(a: Alphabet, kept: string, s: string, from: nat)
    requires Sane(a) && NoSentinel(a, kept) && Closed(a, kept)
    requires from <= |s|
    requires (from == 0 && kept == "") || Ends(a, s, from)
    ensures NoSentinel(a, kept + Sub(a, s, from))
    decreases |s| - from
  {
    var m := Search(a, s, from);
    if m.None? {
      PieceIsClean(a, kept, s, from, |s|);
      assert s[from..|s|] == s[from..];
    } else {
      var to := m.value.from;
      PieceIsClean(a, kept, s, from, to);
      PieceStaysClosed(a, kept, s, from, to);
      MatchHoldsSentinel(a, s, to);
      WordAdvances(a, s, to);
      DeletionLeavesNone(a, kept + s[from..to], s, m.value.to);
      Regroup(kept, s[from..to], Sub(a, s, m.value.to));
    }
  }

  lemma StripLeavesNone(a: Alphabet, s: string)
    requires Sane(a) && NoSentinel(a, s)
    ensures NoSentinel(a, Strip(s))
  {
    var from, to := StripIsASlice(s);
    forall p
      ensures !Delimited(a, s[from..to], p)
    {
      if Delimited(a, s[from..to], p) {
        assert forall k :: 0 <= k < to - from ==> s[from..to][k] == s[from + k];
        assert Delimited(a, s, from + p);
      }
    }
  }

  // ---------------------------------------------------------------- what is left

  /** The first phrase at or after `from`, and the longest one there. */
  ghost predicate First(a: Alphabet, s: string, from: nat, p: nat, e: nat) {
    && from <= p && Phrase(a, s, p, e)
    && forall q: nat, f: nat :: from <= q && Phrase(a, s, q, f) ==> p < q || (p == q && f <= e)
  }

  /** `left` is `s[from..]` with every such phrase cut out, one after the other. */
  ghost predicate CutsTo(a: Alphabet, s: string, from: nat, left: string)
    requires from <= |s|
    decreases |s| - from
  {
    if exists p: nat, e: nat :: First(a, s, from, p, e) then
      exists p: nat, e: nat :: First(a, s, from, p, e) && p < e <= |s|
                     && exists more :: left == s[from..p] + more && CutsTo(a, s, e, more)
    else left == s[from..]
  }

  lemma FirstIsFound(a: Alphabet, s: string, from: nat, p: nat, e: nat)
    requires Sane(a) && from <= |s|
    ensures First(a, s, from, p, e) <==> Search(a, s, from) == Some(Match(p, e))
  {
    var m := Search(a, s, from);
    if m.Some? {
      var i, j := m.value.from, m.value.to;
      LongestPhrase(a, s, i, j);
      forall q: nat, f: nat | from <= q && Phrase(a, s, q, f)
        ensures i < q || (i == q && f <= j)
      {
        PhraseIsInside(a, s, q, f);
        LongestPhrase(a, s, q, f);
      }
      assert First(a, s, from, i, j);
    } else if Phrase(a, s, p, e) && from <= p {
      PhraseIsInside(a, s, p, e);
      LongestPhrase(a, s, p, e);
    }
  }

  lemma PhraseIsInside(a: Alphabet, s: string, p: nat, e: nat)
    requires Phrase(a, s, p, e)
    ensures p + LENGTH <= e <= |s|
  {
  }

  /** `pattern.sub("", s)` cuts out just these phrases. */
  lemma {:induction false} SubCuts(a: Alphabet, s: string, from: nat, left: string)
    requires Sane(a) && from <= |s|
    ensures CutsTo(a, s, from, left) <==> left == Sub(a, s, from)
    decreases |s| - from
  {
    hide Phrase;
    var m := Search(a, s, from);
    forall p: nat, e: nat
      ensures First(a, s, from, p, e) <==> m == Some(Match(p, e))
    {
      FirstIsFound(a, s, from, p, e);
    }
    if m.Some? {
      var i, j := m.value.from, m.value.to;
      WordAdvances(a, s, i);
      assert First(a, s, from, i, j);
      forall more
        ensures CutsTo(a, s, j, more) <==> more == Sub(a, s, j)
      {
        SubCuts(a, s, j, more);
      }
    }
  }

  // ---------------------------------------------------------------- nothing else is deleted

  /** Neither markup nor a letter of the pattern. */
  predicate Foreign(a: Alphabet, c: char) {
    !IsMarkup(c) && !a.same(c, 'b') && forall k :: 0 <= k < LENGTH ==> !a.same(c, SENTINEL[k])
  }

  predicate Free(s: string, from: nat, to: nat, c: char) {
    to <= |s| && forall k :: from <= k < to ==> s[k] != c
  }

  lemma LiteralIsFree(a: Alphabet, s: string, p: nat, text: string, c: char)
    requires Foreign(a, c) && Literal(a, s, p, text)
    requires forall k :: 0 <= k < |text| ==> IsMarkup(text[k]) || text[k] == 'b'
    ensures Free(s, p, p + |text|, c)
  {
    forall k | p <= k < p + |text|
      ensures s[k] != c
    {
      assert IsMarkup(text[k - p]) || text[k - p] == 'b';
      assert s[p + (k - p)] == s[k];
    }
  }

  lemma {:induction false} BangsAreFree(a: Alphabet, s: string, p: nat, c: char)
    requires p <= |s| && Foreign(a, c) && Bangs(a, s, p).Some?
    ensures Free(s, p, Bangs(a, s, p).value, c)
    decreases |s| - p
  {
    if p < |s| && (s[p] == '!' || s[p] == '.') && Bangs(a, s, p + 1).Some? {
      BangsAreFree(a, s, p + 1, c);
    }
  }

  lemma ClosingIsFree(a: Alphabet, s: string, p: nat, c: char)
    requires p <= |s| && Foreign(a, c) && Closing(a, s, p).Some?
    ensures Free(s, p, Closing(a, s, p).value, c)
  {
    if Literal(a, s, p, "</b>") && Bangs(a, s, p + 4).Some? {
      LiteralIsFree(a, s, p, "</b>", c);
      BangsAreFree(a, s, p + 4, c);
    } else {
      BangsAreFree(a, s, p, c);
    }
  }

  lemma WordIsFree(a: Alphabet, s: string, p: nat, c: char)
    requires p <= |s| && Foreign(a, c) && Word(a, s, p).Some?
    ensures Free(s, p, Word(a, s, p).value, c)
  {
    var q := p + LENGTH;
    if Literal(a, s, q, "**") && Closing(a, s, q + 2).Some? {
      LiteralIsFree(a, s, q, "**", c);
      ClosingIsFree(a, s, q + 2, c);
    } else {
      ClosingIsFree(a, s, q, c);
    }
    forall k | p <= k < q
      ensures s[k] != c
    {
      assert a.same(s[p + (k - p)], SENTINEL[k - p]);
    }
  }

  lemma LeadingStarsAreFree(a: Alphabet, s: string, p: nat, c: char)
    requires p <= |s| && Foreign(a, c) && LeadingStars(a, s, p).Some?
    ensures Free(s, p, LeadingStars(a, s, p).value, c)
  {
    if Literal(a, s, p, "**") && Word(a, s, p + 2).Some? {
      LiteralIsFree(a, s, p, "**", c);
      WordIsFree(a, s, p + 2, c);
    } else {
      WordIsFree(a, s, p, c);
    }
  }

  lemma MatchIsFree(a: Alphabet, s: string, p: nat, c: char)
    requires p <= |s| && Foreign(a, c) && MatchAt(a, s, p).Some?
    ensures Free(s, p, MatchAt(a, s, p).value, c)
  {
    if Literal(a, s, p, "<b>") && LeadingStars(a, s, p + 3).Some? {
      LiteralIsFree(a, s, p, "<b>", c);
      LeadingStarsAreFree(a, s, p + 3, c);
    } else {
      LeadingStarsAreFree(a, s, p, c);
    }
  }

  lemma CountWithout(s: string, from: nat, i: nat, j: nat, c: char)
    requires from <= i <= j <= |s| && Free(s, i, j, c)
    ensures multiset(s[from..])[c] == multiset(s[from..i])[c] + multiset(s[j..])[c]
  {
    assert c !in s[i..j];
    assert s[from..] == s[from..i] + s[i..j] + s[j..];
  }

  /** Characters that have no part in the pattern come through the deletion, every one of them. */
  lemma {:induction false} ForeignCharactersSurvive(a: Alphabet, s: string, from: nat, c: char)
    requires from <= |s| && Foreign(a, c)
    ensures multiset(Sub(a, s, from))[c] == multiset(s[from..])[c]
    decreases |s| - from
  {
    var m := Search(a, s, from);
    if m.Some? {
      var i, j := m.value.from, m.value.to;
      WordAdvances(a, s, i);
      MatchIsFree(a, s, i, c);
      CountWithout(s, from, i, j, c);
      ForeignCharactersSurvive(a, s, j, c);
    }
  }

  // ---------------------------------------------------------------- classification

  datatype Classification = AllClear | Alert(text: string)

  predicate IsPunctuation(c: char) {
    '!' <= c <= '/' || ':' <= c <= '@' || '[' <= c <= '`' || '{' <= c <= '~'
  }

  /** `string.punctuation`. */
  lemma PunctuationIs(c: char)
    ensures IsPunctuation(c) <==> c in "!\"#$%&'()*+,-./:;<=>?@[\\]^_`{|}~"
  {
  }

  predicate Wrapper(s: string) {
    forall k :: 0 <= k < |s| ==> IsSpace(s[k]) || IsPunctuation(s[k])
  }

  function Classify(a: Alphabet, body: Option<string>): Classification {
    if body.None? || Strip(body.value) == "" then AllClear
    else if Search(a, body.value, 0).None? then Alert(body.value)
    else
      var remainder := Strip(Sub(a, body.value, 0));
      if remainder != "" && !Wrapper(remainder) then Alert(remainder) else AllClear
  }

  /** What an alert says: all of a response without a sentinel; otherwise what is left, without the white
      space around it, when the sentinels and their markup have been cut out. */
  lemma AlertsSay(a: Alphabet, s: string, left: string)
    requires Sane(a) && CutsTo(a, s, 0, left)
    ensures NoSentinel(a, s) ==> left == s
    ensures Classify(a, Some(s))
         == if Strip(s) == "" then AllClear
            else if NoSentinel(a, s) then Alert(s)
            else if Wrapper(left) then AllClear
            else Alert(Strip(left))
  {
    SubCuts(a, s, 0, left);
    NoSentinelIff(a, s);
    StripKeepsWrapper(left);
  }

  /** An alert never shows the sentinel. */
  lemma AlertsHoldNoSentinel(a: Alphabet, body: Option<string>)
    requires Sane(a) && Classify(a, body).Alert?
    ensures NoSentinel(a, Classify(a, body).text)
  {
    var s := body.value;
    NoSentinelIff(a, s);
    if Search(a, s, 0).Some? {
      assert "" + Sub(a, s, 0) == Sub(a, s, 0);
      DeletionLeavesNone(a, "", s, 0);
      StripLeavesNone(a, Sub(a, s, 0));
    }
  }

  /** The stability theorem: an alert text, classified again, is the same alert. */
  lemma AlertsAreStable(a: Alphabet, body: Option<string>)
    requires Sane(a) && Classify(a, body).Alert?
    ensures Classify(a, Some(Classify(a, body).text)) == Classify(a, body)
  {
    AlertsHoldNoSentinel(a, body);
    NoSentinelIff(a, Classify(a, body).text);
    StripTwice(Sub(a, body.value, 0));
  }

  lemma {:induction false} StripKeepsWrapper(s: string)
    ensures Wrapper(s) <==> Wrapper(Strip(s))
  {
    var from, to := StripIsASlice(s);
    forall k | 0 <= k < |s| && Wrapper(Strip(s))
      ensures IsSpace(s[k]) || IsPunctuation(s[k])
    {
      if from <= k < to {
        assert s[from..to][k - from] == s[k];
      }
    }
    assert forall k :: 0 <= k < to - from ==> s[from..to][k] == s[from + k];
  }

  /** Routine means: nothing but white space, or a sentinel by itself and, all sentinels aside,
      nothing but white space and punctuation. */
  lemma AllClearIff(a: Alphabet, s: string)
    requires Sane(a)
    ensures Classify(a, Some(s)).AllClear? <==>
      Strip(s) == "" || (!NoSentinel(a, s) && Wrapper(Sub(a, s, 0)))
  {
    NoSentinelIff(a, s);
    StripKeepsWrapper(Sub(a, s, 0));
  }

  // ---------------------------------------------------------------- the assumption can be met

  predicate IsLetter(c: char) {
    'A' <= c <= 'Z' || 'a' <= c <= 'z'
  }

  const ASCII := Alphabet(
    (c: char) => IsLetter(c) || '0' <= c <= '9' || c == '_',
    (c: char, l: char) => c == l || (IsLetter(c) && IsLetter(l) && (c as int - l as int) in {32, -32}))

  lemma AsciiIsSane()
    ensures Sane(ASCII)
  {
    assert forall k :: 0 <= k < LENGTH ==> IsLetter(SENTINEL[k]) || SENTINEL[k] == '_';
  }
}
