/** Escaping worker prose for publication: `prose` of crates/pip-control/src/publication_text.rs. */
module PublicationText {
  import opened Prelude

  // ---- whitespace ----

  /** Unicode White_Space. */
  predicate Space(c: char) {
    var n := c as int;
    9 <= n <= 13 || n == 0x20 || n == 0x85 || n == 0xA0 || n == 0x1680 || 0x2000 <= n <= 0x200A ||
    n == 0x2028 || n == 0x2029 || n == 0x202F || n == 0x205F || n == 0x3000
  }

  /** The twenty-five code points with that property. */
  lemma SpaceExactly(c: char)
    ensures Space(c) <==>
            c as int in {9, 10, 11, 12, 13, 32, 133, 160, 5760, 8192, 8193, 8194, 8195, 8196, 8197, 8198, 8199, 8200,
                         8201, 8202, 8232, 8233, 8239, 8287, 12288}
  {
  }

  /** `split_whitespace`. */
  function Words(s: string): (ws: seq<string>)
    ensures s != "" && !Space(s[|s| - 1]) ==> ws != []
  {
    if s == "" then []
    else
      var front, last := s[..|s| - 1], s[|s| - 1];
      var ws := Words(front);
      if Space(last) then ws
      else if front == "" || Space(front[|front| - 1]) then ws + [[last]]
      else ws[|ws| - 1 := ws[|ws| - 1] + [last]]
  }

  function Join(ws: seq<string>): string {
    if ws == [] then ""
    else if |ws| == 1 then ws[0]
    else Join(ws[..|ws| - 1]) + " " + ws[|ws| - 1]
  }

  function Collapse(s: string): string { Join(Words(s)) }

  predicate Word(w: string) { w != "" && forall i :: 0 <= i < |w| ==> !Space(w[i]) }

  lemma {:induction false} WordsAreWords(s: string)
    ensures forall i :: 0 <= i < |Words(s)| ==> Word(Words(s)[i])
  {
    if s == "" {
    } else {
      WordsAreWords(s[..|s| - 1]);
    }
  }

  lemma {:induction false} WordAfterSpace(a: string, w: string)
    requires Word(w) && (a == "" || Space(a[|a| - 1]))
    ensures Words(a + w) == Words(a) + [w]
  {
    var front, last := w[..|w| - 1], w[|w| - 1];
    assert (a + w)[..|a + w| - 1] == a + front;
    if front == "" {
      assert a + front == a && w == [last];
    } else {
      WordAfterSpace(a, front);
      assert (a + front)[|a + front| - 1] == front[|front| - 1];
      assert w == front + [last];
    }
  }

  /** Joining words with single spaces keeps them apart. */
  lemma {:induction false} WordsOfJoin(ws: seq<string>)
    requires forall i :: 0 <= i < |ws| ==> Word(ws[i])
    ensures Words(Join(ws)) == ws
  {
    if |ws| == 1 {
      WordAfterSpace("", ws[0]);
      assert "" + ws[0] == ws[0] && ws == [ws[0]];
    } else if ws != [] {
      var front, last := ws[..|ws| - 1], ws[|ws| - 1];
      WordsOfJoin(front);
      var spaced := Join(front) + " ";
      assert spaced[..|spaced| - 1] == Join(front);
      WordAfterSpace(spaced, last);
      assert ws == front + [last];
    }
  }

  /** Collapsing keeps the words and nothing else. */
  lemma CollapseKeepsWords(s: string)
    ensures Words(Collapse(s)) == Words(s) && Collapse(Collapse(s)) == Collapse(s)
  {
    WordsAreWords(s);
    WordsOfJoin(Words(s));
  }

  /** The characters that are no white space, in order. */
  function Letters(s: string): string {
    if s == "" then ""
    else
      var front, last := Letters(s[..|s| - 1]), s[|s| - 1];
      if Space(last) then front else front + [last]
  }

  lemma {:induction false} LettersConcat(a: string, b: string)
    ensures Letters(a + b) == Letters(a) + Letters(b)
  {
    if b == "" {
      assert a + b == a;
    } else {
      assert (a + b)[..|a + b| - 1] == a + b[..|b| - 1];
      LettersConcat(a, b[..|b| - 1]);
    }
  }

  lemma {:induction false} JoinGrows(ws: seq<string>, c: char)
    requires !Space(c)
    ensures Letters(Join(ws + [[c]])) == Letters(Join(ws)) + [c]
    ensures ws != [] ==> Letters(Join(ws[|ws| - 1 := ws[|ws| - 1] + [c]])) == Letters(Join(ws)) + [c]
  {
    var one: string := [c];
    assert Letters(one) == one by { assert one[..0] == ""; }
    if ws == [] {
      assert ws + [one] == [one];
    } else {
      var front, last := ws[..|ws| - 1], ws[|ws| - 1];
      assert (ws + [one])[..|ws|] == ws;
      LettersConcat(Join(ws) + " ", one);
      LettersConcat(Join(ws), " ");
      assert Letters(" ") == "" by { assert " "[..0] == ""; }
      var grown := ws[|ws| - 1 := last + one];
      assert grown[..|ws| - 1] == front && grown[|ws| - 1] == last + one;
      if |ws| == 1 {
        LettersConcat(last, one);
      } else {
        assert Join(grown) == (Join(front) + " " + last) + one;
        LettersConcat(Join(front) + " " + last, one);
      }
    }
  }

  /** Collapsing drops white space only: every other character stays, in order. */
  lemma {:induction false} CollapseKeepsLetters(s: string)
    ensures Letters(Collapse(s)) == Letters(s)
  {
    if s == "" {
    } else {
      var front, last := s[..|s| - 1], s[|s| - 1];
      CollapseKeepsLetters(front);
      if !Space(last) {
        JoinGrows(Words(front), last);
      }
    }
  }

  /** A collapsed text has no white space but single blanks between words. */
  lemma {:induction false} JoinSpaces(ws: seq<string>, i: nat)
    requires (forall k :: 0 <= k < |ws| ==> Word(ws[k])) && i < |Join(ws)|
    ensures Space(Join(ws)[i]) ==>
              Join(ws)[i] == ' ' && 0 < i < |Join(ws)| - 1 && !Space(Join(ws)[i - 1]) && !Space(Join(ws)[i + 1])
  {
    if |ws| == 1 {
      assert Word(ws[0]);
    } else {
      var front, last := ws[..|ws| - 1], ws[|ws| - 1];
      assert Word(last);
      JoinEnds(front);
      if i < |Join(front)| {
        JoinSpaces(front, i);
      } else if i > |Join(front)| {
        assert Join(ws)[i] == last[i - |Join(front)| - 1];
      } else {
        assert Join(ws)[i - 1] == Join(front)[i - 1] && Join(ws)[i + 1] == last[0];
      }
    }
  }

  lemma JoinEnds(ws: seq<string>)
    requires ws != [] && forall k :: 0 <= k < |ws| ==> Word(ws[k])
    ensures Join(ws) != "" && !Space(Join(ws)[|Join(ws)| - 1])
  {
  }

  // ---- the chain of replacements ----

  datatype Rule = Rule(key: char, text: string)

  function Replace(s: string, r: Rule): string {
    if s == "" then ""
    else if s[|s| - 1] == r.key then Replace(s[..|s| - 1], r) + r.text
    else Replace(s[..|s| - 1], r) + [s[|s| - 1]]
  }

  /** One replacement after the other. */
  function Chain(s: string, rules: seq<Rule>): string
    decreases |rules|
  {
    if rules == [] then s else Chain(Replace(s, rules[0]), rules[1..])
  }

  const RULES: seq<Rule> :=
    [Rule('\\', "\\\\"), Rule('`', "\\`"), Rule('[', "\\["), Rule(']', "\\]"),
     Rule('&', "&amp;"), Rule('<', "&lt;"), Rule('>', "&gt;"), Rule('@', "&#64;")]

  function Prose(s: string): string { Chain(Collapse(s), RULES) }

  /** The first rule for a character, if any. */
  function Lookup(c: char, rules: seq<Rule>): string {
    if rules == [] then [c] else if rules[0].key == c then rules[0].text else Lookup(c, rules[1..])
  }

  /** All characters at once. */
  function Simultaneous(s: string, rules: seq<Rule>): string {
    if s == "" then "" else Simultaneous(s[..|s| - 1], rules) + Lookup(s[|s| - 1], rules)
  }

  predicate Free(s: string, c: char) { forall i :: 0 <= i < |s| ==> s[i] != c }

  /** No later rule touches the text of an earlier one. */
  predicate Ordered(rules: seq<Rule>) {
    forall i, j :: 0 <= i < j < |rules| ==> Free(rules[i].text, rules[j].key)
  }

  lemma {:induction false} ReplaceConcat(a: string, b: string, r: Rule)
    ensures Replace(a + b, r) == Replace(a, r) + Replace(b, r)
  {
    if b == "" {
      assert a + b == a;
    } else {
      assert (a + b)[..|a + b| - 1] == a + b[..|b| - 1];
      ReplaceConcat(a, b[..|b| - 1], r);
    }
  }

  lemma {:induction false} ChainConcat(a: string, b: string, rules: seq<Rule>)
    ensures Chain(a + b, rules) == Chain(a, rules) + Chain(b, rules)
    decreases |rules|
  {
    if rules == [] {
    } else {
      ReplaceConcat(a, b, rules[0]);
      ChainConcat(Replace(a, rules[0]), Replace(b, rules[0]), rules[1..]);
    }
  }

  lemma {:induction false} ReplaceNothing(s: string, r: Rule)
    requires Free(s, r.key)
    ensures Replace(s, r) == s
  {
    if s == "" {
    } else {
      ReplaceNothing(s[..|s| - 1], r);
    }
  }

  lemma {:induction false} ChainNothing(s: string, rules: seq<Rule>)
    requires forall j :: 0 <= j < |rules| ==> Free(s, rules[j].key)
    ensures Chain(s, rules) == s
    decreases |rules|
  {
    if rules == [] {
    } else {
      ReplaceNothing(s, rules[0]);
      ChainNothing(s, rules[1..]);
    }
  }

  lemma {:induction false} ChainChar(c: char, rules: seq<Rule>)
    requires Ordered(rules)
    ensures Chain([c], rules) == Lookup(c, rules)
    decreases |rules|
  {
    if rules == [] {
    } else {
      var rest := rules[1..];
      assert forall j :: 0 <= j < |rest| ==> rest[j] == rules[j + 1];
      assert [c][..0] == "" && Replace("", rules[0]) == "";
      if rules[0].key == c {
        assert Replace([c], rules[0]) == rules[0].text;
        ChainNothing(rules[0].text, rest);
      } else {
        assert Replace([c], rules[0]) == [c];
        ChainChar(c, rest);
      }
    }
  }

  /** A chain in which no later rule touches an earlier text is one simultaneous substitution. */
  lemma {:induction false} ChainIsSimultaneous(s: string, rules: seq<Rule>)
    requires Ordered(rules)
    ensures Chain(s, rules) == Simultaneous(s, rules)
  {
    if s == "" {
      ChainEmpty(rules);
    } else {
      var front, last := s[..|s| - 1], s[|s| - 1];
      ChainIsSimultaneous(front, rules);
      ChainChar(last, rules);
      ChainConcat(front, [last], rules);
      assert s == front + [last];
    }
  }

  lemma {:induction false} ChainEmpty(rules: seq<Rule>)
    ensures Chain("", rules) == ""
    decreases |rules|
  {
    if rules == [] {
    } else {
      ChainEmpty(rules[1..]);
    }
  }

  /** The texts of the first four rules hold a backslash and their own key only. */
  lemma BackslashTexts(i: nat, j: nat)
    requires i < 4 && i < j < 8
    ensures Free(RULES[i].text, RULES[j].key)
  {
  }

  /** The entities hold an ampersand, letters, digits and a semicolon only. */
  lemma EntityTexts(i: nat, j: nat)
    requires 4 <= i < j < 8
    ensures Free(RULES[i].text, RULES[j].key)
  {
  }

  lemma RulesOrdered()
    ensures Ordered(RULES)
  {
    forall i, j | 0 <= i < j < |RULES| ensures Free(RULES[i].text, RULES[j].key) {
      hide Free;
      if i < 4 { BackslashTexts(i, j); } else { EntityTexts(i, j); }
    }
  }

  /** The escape of one character. */
  function Escape(c: char): string {
    match c
    case '\\' => "\\\\"
    case '`' => "\\`"
    case '[' => "\\["
    case ']' => "\\]"
    case '&' => "&amp;"
    case '<' => "&lt;"
    case '>' => "&gt;"
    case '@' => "&#64;"
    case _ => [c]
  }

  function Escaped(s: string): string {
    if s == "" then "" else Escape(s[0]) + Escaped(s[1..])
  }

  lemma LookupAt(c: char, rules: seq<Rule>, k: nat)
    requires k < |rules|
    ensures Lookup(c, rules[k..]) == if rules[k].key == c then rules[k].text else Lookup(c, rules[k + 1..])
  {
  }

  lemma LookupEscapes(c: char)
    ensures Lookup(c, RULES) == Escape(c)
  {
    hide Lookup;
    assert RULES[0..] == RULES && RULES[8..] == [];
    LookupAt(c, RULES, 0);
    LookupAt(c, RULES, 1);
    LookupAt(c, RULES, 2);
    LookupAt(c, RULES, 3);
    LookupAt(c, RULES, 4);
    LookupAt(c, RULES, 5);
    LookupAt(c, RULES, 6);
    LookupAt(c, RULES, 7);
    LookupNone(c);
  }

  lemma LookupNone(c: char)
    ensures Lookup(c, []) == [c]
  {
  }

  lemma {:induction false} EscapedAppend(s: string, c: char)
    ensures Escaped(s + [c]) == Escaped(s) + Escape(c)
  {
    hide Escape;
    if s == "" {
      assert s + [c] == [c] && [c][1..] == "";
      assert Escape(c) + "" == Escape(c);
    } else {
      assert (s + [c])[1..] == s[1..] + [c];
      EscapedAppend(s[1..], c);
    }
  }

  lemma {:induction false} SimultaneousEscapes(s: string)
    ensures Simultaneous(s, RULES) == Escaped(s)
  {
    hide Lookup, Escape;
    if s == "" {
    } else {
      SimultaneousEscapes(s[..|s| - 1]);
      LookupEscapes(s[|s| - 1]);
      EscapedAppend(s[..|s| - 1], s[|s| - 1]);
      assert s == s[..|s| - 1] + [s[|s| - 1]];
    }
  }

  /** `prose` collapses white space and then escapes every character at once. */
  lemma ProseEscapesAtOnce(s: string)
    ensures Prose(s) == Escaped(Collapse(s))
  {
    hide Ordered, Chain, Simultaneous, Escaped;
    RulesOrdered();
    ChainIsSimultaneous(Collapse(s), RULES);
    SimultaneousEscapes(Collapse(s));
  }

  // ---- the escape is safe and invertible ----

  predicate Marked(c: char) { c == '\\' || c == '`' || c == '[' || c == ']' }

  /** Every backtick, bracket and backslash is escaped, and no markup, mention or line break is left. */
  predicate Safe(s: string) {
    if s == "" then true
    else if s[0] == '\\' then |s| >= 2 && Marked(s[1]) && Safe(s[2..])
    else !Marked(s[0]) && s[0] != '<' && s[0] != '>' && s[0] != '@' && s[0] != '\n' && Safe(s[1..])
  }

  /** The reader's side: escapes and entities back to characters. */
  function Decode(s: string): string {
    if s == "" then ""
    else if s[0] == '\\' && |s| >= 2 then [s[1]] + Decode(s[2..])
    else if "&amp;" <= s then "&" + Decode(s[5..])
    else if "&lt;" <= s then "<" + Decode(s[4..])
    else if "&gt;" <= s then ">" + Decode(s[4..])
    else if "&#64;" <= s then "@" + Decode(s[5..])
    else [s[0]] + Decode(s[1..])
  }

  lemma {:induction false} SafePlain(p: string, s: string)
    requires Safe(s) && forall i :: 0 <= i < |p| ==>
               !Marked(p[i]) && p[i] != '<' && p[i] != '>' && p[i] != '@' && p[i] != '\n'
    ensures Safe(p + s)
  {
    if p == "" {
      assert p + s == s;
    } else {
      assert (p + s)[1..] == p[1..] + s;
      SafePlain(p[1..], s);
    }
  }

  lemma SafeEscape(c: char, s: string)
    requires Safe(s) && c != '\n'
    ensures Safe(Escape(c) + s)
  {
    if Marked(c) {
      assert (Escape(c) + s)[2..] == s;
    } else {
      SafePlain(Escape(c), s);
    }
  }

  lemma {:induction false} EscapedIsSafe(s: string)
    requires forall i :: 0 <= i < |s| ==> s[i] != '\n'
    ensures Safe(Escaped(s))
  {
    if s == "" {
    } else {
      EscapedIsSafe(s[1..]);
      SafeEscape(s[0], Escaped(s[1..]));
    }
  }

  lemma DecodeEscape(c: char, s: string)
    ensures Decode(Escape(c) + s) == [c] + Decode(s)
  {
    var t := Escape(c) + s;
    if Marked(c) {
      assert t[0] == '\\' && t[1] == c && t[2..] == s;
    } else if c == '&' || c == '@' {
      assert t[5..] == s;
    } else if c == '<' || c == '>' {
      assert t[4..] == s;
    } else {
      assert t[1..] == s;
    }
  }

  lemma {:induction false} DecodeInverts(s: string)
    ensures Decode(Escaped(s)) == s
  {
    hide Escape;
    if s == "" {
    } else {
      DecodeInverts(s[1..]);
      DecodeEscape(s[0], Escaped(s[1..]));
      assert s == [s[0]] + s[1..];
    }
  }

  /** The published text is safe, and a reader recovers the white-space-collapsed original. */
  lemma ProseSafeAndInvertible(s: string)
    ensures Safe(Prose(s)) && Decode(Prose(s)) == Collapse(s)
  {
    hide Safe, Decode, Escaped, Words, Join;
    ProseEscapesAtOnce(s);
    DecodeInverts(Collapse(s));
    WordsAreWords(s);
    forall i | 0 <= i < |Collapse(s)| ensures Collapse(s)[i] != '\n' {
      JoinSpaces(Words(s), i);
    }
    EscapedIsSafe(Collapse(s));
  }

  /** In a safe text no raw angle bracket, mention or line break occurs anywhere. */
  lemma {:induction false} SafeHasNoMarkup(s: string, i: nat)
    requires Safe(s) && i < |s|
    ensures s[i] != '<' && s[i] != '>' && s[i] != '@' && s[i] != '\n'
  {
    if s[0] == '\\' {
      if i >= 2 { SafeHasNoMarkup(s[2..], i - 2); }
    } else if i >= 1 {
      SafeHasNoMarkup(s[1..], i - 1);
    }
  }
}
