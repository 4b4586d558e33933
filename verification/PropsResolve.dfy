/** Variable substitution in property values: PropsUtils.resolveProps. */
module PropsResolve {
  import opened Sequences

  // ---- The pattern: a dollar sign, an opening brace, one or more name characters, a closing brace ----

  predicate IsNameChar(c: char) {
    'a' <= c <= 'z' || 'A' <= c <= 'Z' || '0' <= c <= '9' || c == '_' || c == '.'
  }

  predicate IsName(n: string) {
    n != "" && forall i :: 0 <= i < |n| ==> IsNameChar(n[i])
  }

  /** The first index from i on that holds no name character. */
  function NameEnd(s: string, i: nat): (end: nat)
    requires i <= |s|
    ensures i <= end <= |s|
    ensures forall x :: i <= x < end ==> IsNameChar(s[x])
    ensures end < |s| ==> !IsNameChar(s[end])
    decreases |s| - i
  {
    if i < |s| && IsNameChar(s[i]) then NameEnd(s, i + 1) else i
  }

  /** The pattern matches at i. A closing brace is no name character, so the greedy match is the only one. */
  predicate MatchesAt(s: string, i: nat) {
    && i + 2 <= |s| && s[i] == '$' && s[i + 1] == '{'
    && var end := NameEnd(s, i + 2); end > i + 2 && end < |s| && s[end] == '}'
  }

  datatype Match = NoMatch | Match(start: nat, end: nat, name: string)

  /** matcher.find(): the leftmost match from i on. */
  function Find(s: string, i: nat): (m: Match)
    requires i <= |s|
    ensures m.Match? ==> i <= m.start < m.end <= |s|
    decreases |s| - i
  {
    if i == |s| then NoMatch
    else if MatchesAt(s, i) then Match(i, NameEnd(s, i + 2) + 1, s[i + 2..NameEnd(s, i + 2)])
    else Find(s, i + 1)
  }

  /** The text from start to end is a reference to the name. */
  ghost predicate ReferenceAt(s: string, start: nat, end: nat, name: string) {
    && start <= end <= |s| && s[start..end] == "${" + name + "}" && name != ""
    && forall c :: c in name ==> 'a' <= c <= 'z' || 'A' <= c <= 'Z' || '0' <= c <= '9' || c in "_."
  }

  /** What the pattern matches is a reference. */
  lemma MatchIsReference(s: string, start: nat)
    requires start < |s| && MatchesAt(s, start)
    ensures var n := NameEnd(s, start + 2); ReferenceAt(s, start, n + 1, s[start + 2..n])
  {
    var n := NameEnd(s, start + 2);
    var name := s[start + 2..n];
    assert s[start..n + 1] == "${" + name + "}";
    forall c | c in name ensures IsNameChar(c) {
      var x :| 0 <= x < |name| && name[x] == c;
      assert c == s[start + 2 + x];
    }
  }

  /** A reference is matched where it begins, and as a whole. */
  lemma ReferenceMatches(s: string, start: nat, end: nat, name: string)
    requires ReferenceAt(s, start, end, name)
    ensures start < |s| && MatchesAt(s, start) && end == NameEnd(s, start + 2) + 1 && name == s[start + 2..end - 1]
  {
    hide NameEnd;
    var whole := "${" + name + "}";
    assert forall x :: 0 <= x < |whole| ==> s[start + x] == s[start..end][x] == whole[x];
    assert s[start] == whole[0] && s[start + 1] == whole[1] && s[end - 1] == whole[|whole| - 1];
    forall x | 0 <= x < |name| ensures s[start + 2 + x] == name[x] && IsNameChar(name[x]) {
      assert whole[2 + x] == name[x] && name[x] in name;
    }
    assert forall y :: start + 2 <= y < end - 1 ==> s[y] == name[y - start - 2];
    assert s[start + 2..end - 1] == name;
  }

  /** In any text the search finds the leftmost reference from i on, or there is none. */
  lemma {:induction false} FindIsLeftmost(s: string, i: nat)
    requires i <= |s|
    ensures Find(s, i).NoMatch? ==>
              forall start: nat, end: nat, name :: i <= start ==> !ReferenceAt(s, start, end, name)
    ensures var m := Find(s, i);
            m.Match? ==>
              && i <= m.start && ReferenceAt(s, m.start, m.end, m.name)
              && forall start: nat, end: nat, name :: i <= start && ReferenceAt(s, start, end, name) ==>
                   m.start < start || (start, end, name) == (m.start, m.end, m.name)
    decreases |s| - i
  {
    hide ReferenceAt, NameEnd;
    forall start: nat, end: nat, name | ReferenceAt(s, start, end, name)
      ensures start < |s| && MatchesAt(s, start)
      ensures end == NameEnd(s, start + 2) + 1 && name == s[start + 2..end - 1]
    {
      ReferenceMatches(s, start, end, name);
    }
    if i < |s| {
      if MatchesAt(s, i) { MatchIsReference(s, i); } else { FindIsLeftmost(s, i + 1); }
    }
  }

  // ---- appendReplacement gives back the text that was escaped for it ----

  /** replaceAll of every backslash by two, then of every dollar sign by a backslash and itself. */
  function DoubleBackslashes(s: string): string {
    if s == "" then "" else (if s[0] == '\\' then "\\\\" else [s[0]]) + DoubleBackslashes(s[1..])
  }

  function EscapeDollars(s: string): string {
    if s == "" then "" else (if s[0] == '$' then "\\$" else [s[0]]) + EscapeDollars(s[1..])
  }

  datatype Expanded = Text(text: string) | IllegalReplacement

  /** How appendReplacement reads a replacement: a backslash makes the next character literal, a
      bare dollar sign asks for a group. */
  function ReadReplacement(s: string): Expanded {
    if s == "" then Text("")
    else if s[0] == '$' || (s[0] == '\\' && |s| == 1) then IllegalReplacement
    else if s[0] == '\\' then Prepend(s[1], ReadReplacement(s[2..]))
    else Prepend(s[0], ReadReplacement(s[1..]))
  }

  function Prepend(c: char, e: Expanded): Expanded {
    if e.Text? then Text([c] + e.text) else e
  }

  /** What becomes of one character. */
  function Escaped(c: char): string {
    if c == '\\' then "\\\\" else if c == '$' then "\\$" else [c]
  }

  lemma EscapesOne(c: char, s: string)
    ensures EscapeDollars(DoubleBackslashes([c] + s)) == Escaped(c) + EscapeDollars(DoubleBackslashes(s))
  {
    var rest := DoubleBackslashes(s);
    assert ([c] + s)[1..] == s;
    if c == '\\' {
      assert DoubleBackslashes([c] + s) == ['\\'] + (['\\'] + rest);
      EscapesPlain('\\', ['\\'] + rest);
      EscapesPlain('\\', rest);
    } else {
      assert DoubleBackslashes([c] + s) == [c] + rest;
      if c == '$' {
        assert ([c] + rest)[1..] == rest;
      } else {
        EscapesPlain(c, rest);
      }
    }
  }

  lemma EscapesPlain(c: char, s: string)
    requires c != '$'
    ensures EscapeDollars([c] + s) == [c] + EscapeDollars(s)
  {
    assert ([c] + s)[1..] == s;
  }

  lemma ReadsOne(c: char, s: string)
    ensures ReadReplacement(Escaped(c) + s) == Prepend(c, ReadReplacement(s))
  {
    var e := Escaped(c) + s;
    if c == '\\' || c == '$' { assert e[2..] == s; } else { assert e[1..] == s; }
  }

  lemma {:induction false} EscapedIsRead(s: string)
    ensures ReadReplacement(EscapeDollars(DoubleBackslashes(s))) == Text(s)
  {
    if s != "" {
      hide Escaped, EscapeDollars, DoubleBackslashes, ReadReplacement;
      EscapedIsRead(s[1..]);
      assert s == [s[0]] + s[1..];
      EscapesOne(s[0], s[1..]);
      ReadsOne(s[0], EscapeDollars(DoubleBackslashes(s[1..])));
    }
  }

  // ---- Values seen as text and references ----

  datatype Token = Literal(c: char) | Reference(name: string)

  predicate IsToken(t: Token) {
    if t.Literal? then t.c !in {'$', '{', '}'} else IsName(t.name)
  }

  function RenderToken(t: Token): string {
    if t.Literal? then [t.c] else "${" + t.name + "}"
  }

  /** The text of a value. */
  function Render(toks: seq<Token>): string {
    if toks == [] then "" else RenderToken(toks[0]) + Render(toks[1..])
  }

  predicate AllTokens(toks: seq<Token>) {
    forall i :: 0 <= i < |toks| ==> IsToken(toks[i])
  }

  predicate AllLiteral(toks: seq<Token>) {
    forall i :: 0 <= i < |toks| ==> toks[i].Literal?
  }

  lemma {:induction false} RenderConcat(a: seq<Token>, b: seq<Token>)
    ensures Render(a + b) == Render(a) + Render(b)
  {
    if a == [] {
      assert a + b == b;
    } else {
      assert (a + b)[1..] == a[1..] + b;
      RenderConcat(a[1..], b);
    }
  }

  lemma {:induction false} LiteralText(toks: seq<Token>)
    requires AllTokens(toks) && AllLiteral(toks)
    ensures |Render(toks)| == |toks| && forall i :: 0 <= i < |toks| ==> Render(toks)[i] == toks[i].c
  {
    if toks != [] { LiteralText(toks[1..]); }
  }

  /** The search skips text without a dollar sign. */
  lemma {:induction false} FindSkips(s: string, i: nat, j: nat)
    requires i <= j <= |s| && forall x :: i <= x < j ==> s[x] != '$'
    ensures Find(s, i) == Find(s, j)
    decreases j - i
  {
    if i < j { FindSkips(s, i + 1, j); }
  }

  lemma {:induction false} NameEndOf(s: string, i: nat, n: nat)
    requires i <= n < |s| && (forall x :: i <= x < n ==> IsNameChar(s[x])) && !IsNameChar(s[n])
    ensures NameEnd(s, i) == n
    decreases n - i
  {
    if i < n { NameEndOf(s, i + 1, n); }
  }

  lemma FindAfter(a: string, n: string, b: string)
    requires (forall x :: 0 <= x < |a| ==> a[x] != '$') && IsName(n)
    ensures Find(a + ("${" + n + "}") + b, 0) == Match(|a|, |a| + |n| + 3, n)
  {
    var s := a + ("${" + n + "}") + b;
    var at := |a|;
    assert s[at + 2..at + 2 + |n|] == n;
    assert forall x :: at + 2 <= x < at + 2 + |n| ==> s[x] == n[x - at - 2];
    FindSkips(s, 0, at);
    NameEndOf(s, at + 2, at + 2 + |n|);
    assert s[at] == '$' && s[at + 1] == '{' && s[at + 2 + |n|] == '}';
    hide NameEnd;
    assert MatchesAt(s, at);
  }

  lemma RenderAround(pre: seq<Token>, t: Token, post: seq<Token>)
    ensures Render(pre + [t] + post) == Render(pre) + RenderToken(t) + Render(post)
  {
    RenderConcat(pre + [t], post);
    RenderConcat(pre, [t]);
    assert [t][1..] == [];
    assert Render([t]) == RenderToken(t);
  }

  /** On a value the leftmost match is its first reference. */
  lemma {:induction false} FindFirst(pre: seq<Token>, n: string, post: seq<Token>)
    requires AllTokens(pre) && AllLiteral(pre) && IsName(n)
    ensures var s := Render(pre + [Reference(n)] + post);
            && s == Render(pre) + ("${" + n + "}") + Render(post)
            && Find(s, 0) == Match(|Render(pre)|, |Render(pre)| + |n| + 3, n)
  {
    RenderAround(pre, Reference(n), post);
    LiteralText(pre);
    FindAfter(Render(pre), n, Render(post));
  }

  lemma FindNothing(toks: seq<Token>)
    requires AllTokens(toks) && AllLiteral(toks)
    ensures Find(Render(toks), 0) == NoMatch
  {
    LiteralText(toks);
    FindSkips(Render(toks), 0, |Render(toks)|);
  }

  // ---- Definitions, and what a key expands to ----

  type Definitions = map<string, seq<Token>>

  /** The properties are the texts of the definitions. */
  ghost predicate Defines(props: map<string, string>, defs: Definitions) {
    && props.Keys == defs.Keys
    && forall k :: k in defs ==> AllTokens(defs[k]) && props[k] == Render(defs[k])
  }

  /** TooDeep: references were nested deeper than was looked. */
  datatype Resolution = Resolved(text: string) | Circular | Undefined(variable: string) | TooDeep

  /** The texts one after the other; the first problem decides. */
  function Then(a: Resolution, b: Resolution): Resolution {
    if a.Resolved? && b.Resolved? then Resolved(a.text + b.text)
    else if a.Resolved? then b
    else a
  }

  /** Recursive expansion from left to right, of references nested up to the given depth. */
  ghost function Expand(defs: Definitions, key: string, toks: seq<Token>, depth: nat): Resolution
    decreases depth, |toks|
  {
    if toks == [] then Resolved("")
    else Then(ExpandToken(defs, key, toks[0], depth), Expand(defs, key, toks[1..], depth))
  }

  ghost function ExpandToken(defs: Definitions, key: string, t: Token, depth: nat): Resolution
    decreases depth, 0
  {
    if t.Literal? then Resolved([t.c])
    else if t.name == key then Circular
    else if t.name !in defs then Undefined(t.name)
    else if depth == 0 then TooDeep
    else Expand(defs, key, defs[t.name], depth - 1)
  }

  /** What a key expands to. CyclesRun shows that looking deeper than the number of definitions is of no use. */
  ghost function Value(defs: Definitions, key: string): Resolution
    requires key in defs
  {
    Expand(defs, key, defs[key], |defs|)
  }

  /** A result does not change when one looks deeper. */
  lemma {:induction false} ExpandDeeper(defs: Definitions, key: string, toks: seq<Token>, d: nat, d': nat)
    requires d <= d' && !Expand(defs, key, toks, d).TooDeep?
    ensures Expand(defs, key, toks, d') == Expand(defs, key, toks, d)
    decreases d, |toks|
  {
    if toks != [] {
      var t := toks[0];
      if t.Reference? && t.name != key && t.name in defs && d > 0 {
        ExpandDeeper(defs, key, defs[t.name], d - 1, d' - 1);
      }
      if ExpandToken(defs, key, t, d).Resolved? { ExpandDeeper(defs, key, toks[1..], d, d'); }
    }
  }

  lemma ThenAssociates(a: Resolution, b: Resolution, c: Resolution)
    ensures Then(Then(a, b), c) == Then(a, Then(b, c))
  {
    if a.Resolved? && b.Resolved? && c.Resolved? {
      assert a.text + b.text + c.text == a.text + (b.text + c.text);
    }
  }

  lemma {:induction false} ExpandConcat(defs: Definitions, key: string, a: seq<Token>, b: seq<Token>, depth: nat)
    ensures Expand(defs, key, a + b, depth) == Then(Expand(defs, key, a, depth), Expand(defs, key, b, depth))
    decreases |a|
  {
    if a == [] {
      assert a + b == b;
      var e := Expand(defs, key, b, depth);
      if e.Resolved? { assert "" + e.text == e.text; }
    } else {
      assert (a + b)[1..] == a[1..] + b && (a + b)[0] == a[0];
      hide ExpandToken, Then;
      ExpandConcat(defs, key, a[1..], b, depth);
      ThenAssociates(ExpandToken(defs, key, a[0], depth), Expand(defs, key, a[1..], depth),
                     Expand(defs, key, b, depth));
    }
  }

  lemma {:induction false} ExpandLiterals(defs: Definitions, key: string, toks: seq<Token>, depth: nat)
    requires AllLiteral(toks)
    ensures Expand(defs, key, toks, depth) == Resolved(Render(toks)) && Weight(defs, key, toks, depth) == 0
    decreases |toks|
  {
    if toks != [] { ExpandLiterals(defs, key, toks[1..], depth); }
  }

  lemma ExpandOne(defs: Definitions, key: string, t: Token, depth: nat)
    ensures Expand(defs, key, [t], depth) == ExpandToken(defs, key, t, depth)
    ensures Weight(defs, key, [t], depth) == WeightOf(defs, key, t, depth)
  {
    assert [t][0] == t && [t][1..] == [];
    var e := ExpandToken(defs, key, t, depth);
    if e.Resolved? { assert e.text + "" == e.text; }
    assert Weight(defs, key, [], depth) == 0;
  }

  // ---- How much there is still to replace ----

  /** The number of replacements that the expansion makes before it ends. */
  ghost function Weight(defs: Definitions, key: string, toks: seq<Token>, depth: nat): nat
    decreases depth, |toks|
  {
    if toks == [] then 0
    else
      var rest := if ExpandToken(defs, key, toks[0], depth).Resolved? then Weight(defs, key, toks[1..], depth) else 0;
      WeightOf(defs, key, toks[0], depth) + rest
  }

  ghost function WeightOf(defs: Definitions, key: string, t: Token, depth: nat): nat
    decreases depth, 0
  {
    if t.Literal? || t.name == key || t.name !in defs || depth == 0 then 0
    else 1 + Weight(defs, key, defs[t.name], depth - 1)
  }

  lemma {:induction false} WeightDeeper(defs: Definitions, key: string, toks: seq<Token>, d: nat, d': nat)
    requires d <= d' && !Expand(defs, key, toks, d).TooDeep?
    ensures Weight(defs, key, toks, d') == Weight(defs, key, toks, d)
    decreases d, |toks|
  {
    if toks != [] {
      var t := toks[0];
      if t.Reference? && t.name != key && t.name in defs && d > 0 {
        ExpandDeeper(defs, key, defs[t.name], d - 1, d' - 1);
        WeightDeeper(defs, key, defs[t.name], d - 1, d' - 1);
      }
      if ExpandToken(defs, key, t, d).Resolved? { WeightDeeper(defs, key, toks[1..], d, d'); }
    }
  }

  lemma {:induction false} WeightConcat(defs: Definitions, key: string, a: seq<Token>, b: seq<Token>, depth: nat)
    ensures Weight(defs, key, a + b, depth)
         == Weight(defs, key, a, depth)
          + (if Expand(defs, key, a, depth).Resolved? then Weight(defs, key, b, depth) else 0)
    decreases |a|
  {
    if a == [] {
      assert a + b == b;
    } else {
      assert (a + b)[1..] == a[1..] + b && (a + b)[0] == a[0];
      hide ExpandToken, WeightOf;
      WeightConcat(defs, key, a[1..], b, depth);
    }
  }

  /** What stands around a first reference. */
  lemma Around(defs: Definitions, key: string, pre: seq<Token>, mid: seq<Token>, post: seq<Token>, depth: nat)
    requires AllLiteral(pre)
    ensures Expand(defs, key, pre + mid + post, depth)
         == Then(Resolved(Render(pre)), Then(Expand(defs, key, mid, depth), Expand(defs, key, post, depth)))
    ensures Weight(defs, key, pre + mid + post, depth)
         == Weight(defs, key, mid, depth)
          + (if Expand(defs, key, mid, depth).Resolved? then Weight(defs, key, post, depth) else 0)
  {
    ExpandConcat(defs, key, pre + mid, post, depth);
    ExpandConcat(defs, key, pre, mid, depth);
    ExpandLiterals(defs, key, pre, depth);
    WeightConcat(defs, key, pre + mid, post, depth);
    WeightConcat(defs, key, pre, mid, depth);
    ThenAssociates(Resolved(Render(pre)), Expand(defs, key, mid, depth), Expand(defs, key, post, depth));
    hide Expand, Weight;
  }

  /** Replacing the first reference by its definition changes nothing in what the value expands to,
      and leaves less to replace. */
  lemma {:induction false} ReplaceKeeps(
    defs: Definitions, key: string, pre: seq<Token>, n: string, post: seq<Token>, depth: nat)
    requires AllLiteral(pre) && n != key && n in defs && !Expand(defs, key, pre + [Reference(n)] + post, depth).TooDeep?
    ensures Expand(defs, key, pre + defs[n] + post, depth) == Expand(defs, key, pre + [Reference(n)] + post, depth)
    ensures Weight(defs, key, pre + defs[n] + post, depth) < Weight(defs, key, pre + [Reference(n)] + post, depth)
  {
    Around(defs, key, pre, [Reference(n)], post, depth);
    Around(defs, key, pre, defs[n], post, depth);
    ExpandOne(defs, key, Reference(n), depth);
    assert depth > 0;
    hide Expand, Weight;
    ExpandDeeper(defs, key, defs[n], depth - 1, depth);
    WeightDeeper(defs, key, defs[n], depth - 1, depth);
  }

  /** The other way: what the replaced value expands to, the value expands to one level deeper. */
  lemma ReplaceBack(defs: Definitions, key: string, pre: seq<Token>, n: string, post: seq<Token>, depth: nat)
    requires AllLiteral(pre) && n != key && n in defs && !Expand(defs, key, pre + defs[n] + post, depth).TooDeep?
    ensures Expand(defs, key, pre + [Reference(n)] + post, depth + 1) == Expand(defs, key, pre + defs[n] + post, depth)
  {
    Around(defs, key, pre, [Reference(n)], post, depth + 1);
    Around(defs, key, pre, defs[n], post, depth);
    ExpandOne(defs, key, Reference(n), depth + 1);
    hide Expand;
    if Expand(defs, key, defs[n], depth).Resolved? { ExpandDeeper(defs, key, post, depth, depth + 1); }
  }

  /** A reference that cannot be replaced decides the outcome. */
  lemma StuckDecides(defs: Definitions, key: string, pre: seq<Token>, n: string, post: seq<Token>, depth: nat)
    requires AllLiteral(pre) && (n == key || n !in defs)
    ensures Expand(defs, key, pre + [Reference(n)] + post, depth) == if n == key then Circular else Undefined(n)
  {
    Around(defs, key, pre, [Reference(n)], post, depth);
    ExpandOne(defs, key, Reference(n), depth);
    hide Expand;
  }

  /** The index of the first reference. */
  ghost function FirstReference(toks: seq<Token>): (i: nat)
    ensures i <= |toks| && AllLiteral(toks[..i]) && (i < |toks| ==> toks[i].Reference?)
  {
    if toks == [] || toks[0].Reference? then 0 else 1 + FirstReference(toks[1..])
  }

  /** What the matcher finds, in terms of tokens. */
  lemma FindsReference(toks: seq<Token>)
    requires AllTokens(toks)
    ensures var i := FirstReference(toks);
            && (i == |toks| ==> toks[..i] == toks && Find(Render(toks), 0) == NoMatch)
            && (i < |toks| ==>
                  && toks == toks[..i] + [toks[i]] + toks[i + 1..]
                  && Find(Render(toks), 0) ==
                       Match(|Render(toks[..i])|, |Render(toks[..i])| + |toks[i].name| + 3, toks[i].name)
                  && Render(toks) == Render(toks[..i]) + RenderToken(toks[i]) + Render(toks[i + 1..]))
  {
    hide Find, Render, FirstReference;
    var i := FirstReference(toks);
    if i < |toks| {
      assert IsToken(toks[i]);
      var pre, n, post := toks[..i], toks[i].name, toks[i + 1..];
      assert toks == pre + [Reference(n)] + post;
      FindFirst(pre, n, post);
    } else {
      assert toks[..i] == toks;
      FindNothing(toks);
    }
  }

  lemma Spliced(toks: seq<Token>, i: nat, start: nat, end: nat)
    requires i < |toks| && toks[i].Reference?
    requires Render(toks) == Render(toks[..i]) + RenderToken(toks[i]) + Render(toks[i + 1..])
    requires start == |Render(toks[..i])| && end == start + |toks[i].name| + 3
    ensures end <= |Render(toks)|
    ensures Render(toks)[..start] == Render(toks[..i]) && Render(toks)[end..] == Render(toks[i + 1..])
  {
    assert |RenderToken(toks[i])| == |toks[i].name| + 3;
    hide Render;
  }

  lemma SplicedTokens(props: map<string, string>, defs: Definitions, toks: seq<Token>, i: nat, n: string)
    requires Defines(props, defs) && AllTokens(toks) && i < |toks| && n in defs
    ensures AllTokens(toks[..i] + defs[n] + toks[i + 1..]) && props[n] == Render(defs[n])
    ensures Render(toks[..i] + defs[n] + toks[i + 1..]) == Render(toks[..i]) + Render(defs[n]) + Render(toks[i + 1..])
  {
    RenderConcat(toks[..i] + defs[n], toks[i + 1..]);
    RenderConcat(toks[..i], defs[n]);
  }

  // ---- The loop, turn by turn ----

  /** Where the loop for one key stands. */
  datatype Turn = Halt(result: Resolution) | Continue(value: string)

  /** One turn: the leftmost reference decides, or is replaced. */
  function TakeTurn(props: map<string, string>, key: string, value: string): Turn {
    match Find(value, 0)
    case NoMatch => Halt(Resolved(value))
    case Match(start, end, name) =>
      if name == key then Halt(Circular)
      else if name !in props then Halt(Undefined(name))
      else
        EscapedIsRead(props[name]);
        Continue(value[..start] + ReadReplacement(EscapeDollars(DoubleBackslashes(props[name]))).text + value[end..])
  }

  /** After n turns. */
  function Turns(props: map<string, string>, key: string, value: string, n: nat): Turn
    decreases n
  {
    if n == 0 then Continue(value)
    else match TakeTurn(props, key, value)
      case Halt(r) => Halt(r)
      case Continue(next) => Turns(props, key, next, n - 1)
  }

  ghost predicate Halts(props: map<string, string>, key: string, value: string) {
    exists n: nat :: Turns(props, key, value, n).Halt?
  }

  /** A turn in terms of tokens. */
  lemma TurnOnTokens(props: map<string, string>, defs: Definitions, key: string, toks: seq<Token>)
    requires Defines(props, defs) && AllTokens(toks)
    ensures var i, turn := FirstReference(toks), TakeTurn(props, key, Render(toks));
            && (i == |toks| ==> toks[..i] == toks && turn == Halt(Resolved(Render(toks))))
            && (i < |toks| ==> toks == toks[..i] + [Reference(toks[i].name)] + toks[i + 1..])
            && (i < |toks| && toks[i].name == key ==> turn == Halt(Circular))
            && (i < |toks| && toks[i].name != key && toks[i].name !in defs ==> turn == Halt(Undefined(toks[i].name)))
            && (i < |toks| && toks[i].name != key && toks[i].name in defs ==>
                  var toks' := toks[..i] + defs[toks[i].name] + toks[i + 1..];
                  AllTokens(toks') && turn == Continue(Render(toks')))
  {
    hide Find, Render, FirstReference, AllTokens, AllLiteral, EscapeDollars, DoubleBackslashes, ReadReplacement;
    FindsReference(toks);
    var i := FirstReference(toks);
    if i < |toks| {
      var n := toks[i].name;
      var m := Find(Render(toks), 0);
      Spliced(toks, i, m.start, m.end);
      if n in defs {
        SplicedTokens(props, defs, toks, i, n);
        EscapedIsRead(props[n]);
      }
    }
  }

  /** A value that expands to a result is brought there by the loop. */
  lemma {:induction false} ExpandedHalts(props: map<string, string>, defs: Definitions, key: string, toks: seq<Token>,
                                         depth: nat)
    returns (n: nat)
    requires Defines(props, defs) && AllTokens(toks) && !Expand(defs, key, toks, depth).TooDeep?
    ensures Turns(props, key, Render(toks), n) == Halt(Expand(defs, key, toks, depth))
    decreases Weight(defs, key, toks, depth)
  {
    hide Expand, Weight, TakeTurn, AllTokens, Render, FirstReference;
    TurnOnTokens(props, defs, key, toks);
    var i := FirstReference(toks);
    if i == |toks| {
      ExpandLiterals(defs, key, toks, depth);
      n := 1;
    } else {
      var pre, name, post := toks[..i], toks[i].name, toks[i + 1..];
      if name == key || name !in defs {
        StuckDecides(defs, key, pre, name, post, depth);
        n := 1;
      } else {
        ReplaceKeeps(defs, key, pre, name, post, depth);
        var m := ExpandedHalts(props, defs, key, pre + defs[name] + post, depth);
        n := m + 1;
      }
    }
  }

  /** A loop that halts after n turns has met no reference nested deeper than n. */
  lemma {:induction false} HaltedExpands(props: map<string, string>, defs: Definitions, key: string, toks: seq<Token>,
                                         n: nat)
    requires Defines(props, defs) && AllTokens(toks) && Turns(props, key, Render(toks), n).Halt?
    ensures Turns(props, key, Render(toks), n) == Halt(Expand(defs, key, toks, n))
    ensures !Expand(defs, key, toks, n).TooDeep?
    decreases n
  {
    hide Expand, TakeTurn, AllTokens, Render, FirstReference;
    TurnOnTokens(props, defs, key, toks);
    var i := FirstReference(toks);
    if i == |toks| {
      ExpandLiterals(defs, key, toks, n);
    } else {
      var pre, name, post := toks[..i], toks[i].name, toks[i + 1..];
      if name == key || name !in defs {
        StuckDecides(defs, key, pre, name, post, n);
      } else {
        HaltedExpands(props, defs, key, pre + defs[name] + post, n - 1);
        ReplaceBack(defs, key, pre, name, post, n - 1);
      }
    }
  }

  // ---- Cycles that the loop runs into ----

  /** A variable that the expansion of these tokens really comes to: everything before it is resolved. */
  ghost predicate ComesTo(defs: Definitions, key: string, toks: seq<Token>, n: string) {
    && n != key && n in defs
    && exists i, depth: nat ::
         0 <= i < |toks| && toks[i] == Reference(n) && Expand(defs, key, toks[..i], depth).Resolved?
  }

  /** Each variable is come to while the one before is expanded. */
  ghost predicate Descent(defs: Definitions, key: string, path: seq<string>) {
    && path != [] && path[0] in defs
    && forall i, j {:trigger path[i], path[j]} :: 0 <= i < j == i + 1 < |path| ==>
         path[i] in defs && ComesTo(defs, key, defs[path[i]], path[j])
  }

  /** The expansion of the key comes to some variable while it already expands that variable. */
  ghost predicate RunsIntoCycle(defs: Definitions, key: string) {
    exists path, i, j :: Descent(defs, key, path) && 0 < i < j < |path| && path[0] == key && path[i] == path[j]
  }

  /** Where the expansion is too deep, it has come to a variable whose definition is too deep. */
  lemma {:induction false} TooDeepAt(defs: Definitions, key: string, toks: seq<Token>, depth: nat) returns (i: nat)
    requires Expand(defs, key, toks, depth).TooDeep?
    ensures i < |toks| && toks[i].Reference? && ComesTo(defs, key, toks, toks[i].name)
    ensures Expand(defs, key, toks[..i], depth).Resolved?
    ensures depth > 0 ==> Expand(defs, key, defs[toks[i].name], depth - 1).TooDeep?
    decreases |toks|
  {
    var t := toks[0];
    if ExpandToken(defs, key, t, depth).Resolved? {
      var x := TooDeepAt(defs, key, toks[1..], depth);
      i := x + 1;
      assert toks[..i][0] == t && toks[..i][1..] == toks[1..][..x];
    } else {
      i := 0;
      assert toks[..0] == [];
    }
    assert Expand(defs, key, toks[..i], depth).Resolved? && toks[i] == Reference(toks[i].name);
  }

  lemma DescentOn(defs: Definitions, key: string, path: seq<string>, n: string)
    requires Descent(defs, key, path) && path[|path| - 1] in defs && ComesTo(defs, key, defs[path[|path| - 1]], n)
    ensures Descent(defs, key, path + [n])
  {
    hide Expand, ComesTo;
    var longer := path + [n];
    forall i | 0 <= i < |path| ensures longer[i] in defs && ComesTo(defs, key, defs[longer[i]], longer[i + 1]) {
      if i + 1 < |path| { assert longer[i] == path[i] && longer[i + 1] == path[i + 1]; }
    }
  }

  /** So there is a descent of any such depth. */
  lemma {:induction false} DeepDescent(defs: Definitions, key: string, path: seq<string>, depth: nat)
    returns (longer: seq<string>)
    requires Descent(defs, key, path) && path[|path| - 1] in defs
    requires Expand(defs, key, defs[path[|path| - 1]], depth).TooDeep?
    ensures Descent(defs, key, longer) && longer[0] == path[0] && |longer| == |path| + depth + 1
    ensures longer[|longer| - 1] in defs
    decreases depth
  {
    hide Expand, Descent;
    DescentParts(defs, key, path);
    var toks := defs[path[|path| - 1]];
    var i := TooDeepAt(defs, key, toks, depth);
    var n := toks[i].name;
    DescentOn(defs, key, path, n);
    if depth == 0 {
      longer := path + [n];
    } else {
      longer := DeepDescent(defs, key, path + [n], depth - 1);
    }
  }

  lemma DescentParts(defs: Definitions, key: string, path: seq<string>)
    requires Descent(defs, key, path)
    ensures path != []
    ensures forall i :: 0 <= i < |path| ==> path[i] in defs && (i > 0 ==> path[i] != key)
  {
    forall i | 0 <= i < |path| ensures path[i] in defs && (i > 0 ==> path[i] != key) {
      if i > 0 { assert path[i] == path[i] && path[i - 1] in defs && ComesTo(defs, key, defs[path[i - 1]], path[i]); }
    }
  }

  /** More elements than there are values: one comes twice. */
  lemma {:induction false} Repeats(q: seq<string>, values: set<string>) returns (i: nat, j: nat)
    requires |q| > |values| && forall x :: x in q ==> x in values
    ensures i < j < |q| && q[i] == q[j]
    decreases |q|
  {
    var last := |q| - 1;
    if x: nat :| x < last && q[x] == q[last] {
      i, j := x, last;
    } else {
      var front := q[..last];
      assert q[last] in values;
      forall x | x in front ensures x in values - {q[last]} {
        var y :| 0 <= y < |front| && front[y] == x;
        assert q[y] == x;
      }
      i, j := Repeats(front, values - {q[last]});
    }
  }

  lemma DeepIsCycle(defs: Definitions, key: string)
    requires key in defs && Value(defs, key).TooDeep?
    ensures RunsIntoCycle(defs, key)
  {
    hide Expand;
    assert Descent(defs, key, [key]);
    var path := DeepDescent(defs, key, [key], |defs|);
    DescentParts(defs, key, path);
    var below := path[1..];
    forall x | x in below ensures x in defs.Keys {
      var y :| 0 <= y < |below| && below[y] == x;
      assert path[y + 1] == x;
    }
    assert |below| > |defs.Keys|;
    var i, j := Repeats(below, defs.Keys);
    assert path[i + 1] == path[j + 1];
  }

  /** Expanding a variable takes one level more than any variable it comes to. */
  lemma {:induction false} OneLevel(defs: Definitions, key: string, toks: seq<Token>, n: string, depth: nat)
    requires ComesTo(defs, key, toks, n) && !Expand(defs, key, toks, depth).TooDeep?
    ensures depth > 0 && !Expand(defs, key, defs[n], depth - 1).TooDeep?
  {
    var i, d: nat :| 0 <= i < |toks| && toks[i] == Reference(n) && Expand(defs, key, toks[..i], d).Resolved?;
    assert toks == toks[..i] + ([toks[i]] + toks[i + 1..]);
    ExpandConcat(defs, key, toks[..i], [toks[i]] + toks[i + 1..], depth);
    ExpandConcat(defs, key, [toks[i]], toks[i + 1..], depth);
    ExpandOne(defs, key, toks[i], depth);
    hide Expand;
    var top := if d > depth then d else depth;
    ExpandDeeper(defs, key, toks[..i], d, top);
    ExpandDeeper(defs, key, toks[..i], depth, top);
  }

  lemma {:induction false} Levels(defs: Definitions, key: string, path: seq<string>, i: nat, j: nat, depth: nat)
    requires Descent(defs, key, path) && i <= j < |path| && path[i] in defs
    requires !Expand(defs, key, defs[path[i]], depth).TooDeep?
    ensures path[j] in defs && depth >= j - i && !Expand(defs, key, defs[path[j]], depth - (j - i)).TooDeep?
    decreases j
  {
    hide Expand;
    if i < j {
      Levels(defs, key, path, i, j - 1, depth);
      DescentParts(defs, key, path);
      assert ComesTo(defs, key, defs[path[j - 1]], path[j]);
      OneLevel(defs, key, defs[path[j - 1]], path[j], depth - (j - 1 - i));
    }
  }

  lemma {:induction false} CycleIsDeep(defs: Definitions, key: string, path: seq<string>, i: nat, j: nat, depth: nat)
    requires Descent(defs, key, path) && i < j < |path| && path[i] == path[j] && path[i] in defs
    ensures Expand(defs, key, defs[path[i]], depth).TooDeep?
    decreases depth
  {
    hide Expand, Descent;
    if !Expand(defs, key, defs[path[i]], depth).TooDeep? {
      Levels(defs, key, path, i, j, depth);
      CycleIsDeep(defs, key, path, i, j, depth - (j - i));
    }
  }

  /** On a cycle the expansion is too deep at any depth. */
  lemma CycleStaysDeep(defs: Definitions, key: string, depth: nat)
    requires key in defs && RunsIntoCycle(defs, key)
    ensures Expand(defs, key, defs[key], depth).TooDeep?
  {
    hide Expand, Descent;
    var path, i, j :| Descent(defs, key, path) && 0 < i < j < |path| && path[0] == key && path[i] == path[j];
    if !Expand(defs, key, defs[key], depth).TooDeep? {
      Levels(defs, key, path, 0, i, depth);
      CycleIsDeep(defs, key, path, i, j, depth - i);
    }
  }

  /** For any definitions: the loop for a key runs for ever exactly if the expansion, from left to
      right, comes to a variable that it is expanding already, other than the key itself. Otherwise it
      halts with what the key expands to. */
  lemma {:induction false} CyclesRun(props: map<string, string>, defs: Definitions, key: string)
    requires Defines(props, defs) && key in props
    ensures Halts(props, key, props[key]) <==> !RunsIntoCycle(defs, key)
    ensures Halts(props, key, props[key]) <==> !Value(defs, key).TooDeep?
    ensures forall n: nat :: Turns(props, key, props[key], n).Halt? ==>
              Turns(props, key, props[key], n).result == Value(defs, key)
  {
    hide Expand, RunsIntoCycle, Turns;
    if Value(defs, key).TooDeep? {
      DeepIsCycle(defs, key);
    } else {
      var m := ExpandedHalts(props, defs, key, defs[key], |defs|);
      if RunsIntoCycle(defs, key) { CycleStaysDeep(defs, key, |defs|); }
    }
    forall n: nat | Turns(props, key, props[key], n).Halt?
      ensures !RunsIntoCycle(defs, key) && !Value(defs, key).TooDeep?
      ensures Turns(props, key, props[key], n).result == Value(defs, key)
    {
      HaltedExpands(props, defs, key, defs[key], n);
      if RunsIntoCycle(defs, key) { CycleStaysDeep(defs, key, n); }
      if Value(defs, key).TooDeep? { DeepIsCycle(defs, key); }
      var top := if n > |defs| then n else |defs|;
      ExpandDeeper(defs, key, defs[key], n, top);
      ExpandDeeper(defs, key, defs[key], |defs|, top);
    }
  }

  /** The smallest case: a variable defined as itself, come to under another key, leaves the value as
      it is, turn after turn. */
  lemma {:induction false} SelfReferenceElsewhere(
    props: map<string, string>, defs: Definitions, key: string, v: string, pre: seq<Token>, post: seq<Token>, n: nat)
    requires Defines(props, defs) && key in defs && v in defs && v != key && AllLiteral(pre)
    requires defs[key] == pre + [Reference(v)] + post && defs[v] == [Reference(v)]
    ensures Turns(props, key, props[key], n) == Continue(props[key])
    decreases n
  {
    hide TakeTurn, Render, AllTokens;
    TurnOnTokens(props, defs, key, defs[key]);
    FirstIs(pre, Reference(v), post);
    if n > 0 { SelfReferenceElsewhere(props, defs, key, v, pre, post, n - 1); }
  }

  lemma {:induction false} FirstIs(pre: seq<Token>, t: Token, post: seq<Token>)
    requires AllLiteral(pre) && t.Reference?
    ensures FirstReference(pre + [t] + post) == |pre|
  {
    var toks := pre + [t] + post;
    if pre == [] {
      assert toks[0] == t;
    } else {
      assert toks[0] == pre[0] && toks[1..] == pre[1..] + [t] + post;
      FirstIs(pre[1..], t, post);
    }
  }

  /** One key: the leftmost reference is replaced until there is none. */
  method ResolveValue(props: map<string, string>, key: string, ghost defs: Definitions) returns (r: Resolution)
    requires Defines(props, defs) && key in props && !Value(defs, key).TooDeep?
    ensures r == Value(defs, key)
  {
    ghost var toks, depth := defs[key], |defs|;
    hide Expand, Weight, Find, Render, AllTokens, DoubleBackslashes, EscapeDollars, ReadReplacement, FirstReference;
    var value := props[key];
    var matcher := Find(value, 0);
    while matcher.Match?
      invariant AllTokens(toks) && value == Render(toks) && matcher == Find(value, 0)
      invariant Expand(defs, key, toks, depth) == Value(defs, key)
      decreases Weight(defs, key, toks, depth)
    {
      FindsReference(toks);
      ghost var i := FirstReference(toks);
      ghost var pre, post := toks[..i], toks[i + 1..];
      var variableName := matcher.name;
      if variableName == key {
        StuckDecides(defs, key, pre, variableName, post, depth);
        return Circular;
      }
      if variableName !in props {
        StuckDecides(defs, key, pre, variableName, post, depth);
        return Undefined(variableName);
      }
      var replacement := EscapeDollars(DoubleBackslashes(props[variableName]));
      EscapedIsRead(props[variableName]);
      var text := ReadReplacement(replacement).text;
      Spliced(toks, i, matcher.start, matcher.end);
      value := value[..matcher.start] + text + value[matcher.end..];
      ReplaceKeeps(defs, key, pre, variableName, post, depth);
      SplicedTokens(props, defs, toks, i, variableName);
      toks := pre + defs[variableName] + post;
      matcher := Find(value, 0);
    }
    FindsReference(toks);
    ExpandLiterals(defs, key, toks, depth);
    return Resolved(value);
  }

  // ---- Which variables a key reaches ----

  predicate Refers(defs: Definitions, k: string, n: string) {
    k in defs && Reference(n) in defs[k]
  }

  /** Each name is referred to by the one before. */
  ghost predicate Path(defs: Definitions, path: seq<string>) {
    && path != []
    && forall i, j {:trigger path[i], path[j]} :: 0 <= i < j == i + 1 < |path| ==> Refers(defs, path[i], path[j])
  }

  lemma PathFrom(defs: Definitions, n: string, path: seq<string>)
    requires Path(defs, path) && n in defs && Reference(path[0]) in defs[n]
    ensures Path(defs, [n] + path) && Last([n] + path) == Last(path)
  {
    var whole := [n] + path;
    forall i | 0 < i < |whole| ensures Refers(defs, whole[i - 1], whole[i]) {
      if i > 1 { assert whole[i] == path[i - 1]; }
    }
  }

  lemma PathRest(defs: Definitions, path: seq<string>)
    requires Path(defs, path) && |path| > 1
    ensures Path(defs, path[1..]) && Last(path[1..]) == Last(path)
    ensures path[0] in defs && Reference(path[1]) in defs[path[0]]
  {
    var rest := path[1..];
    forall i | 0 < i < |rest| ensures Refers(defs, rest[i - 1], rest[i]) {
      assert rest[i] == path[i + 1];
    }
    assert path[1] == path[1];
  }

  /** A problem in the expansion is a variable that is reached: an undefined one, or the key again. */
  lemma {:induction false} ProblemIsReached(defs: Definitions, key: string, toks: seq<Token>, depth: nat)
    returns (path: seq<string>)
    requires var e := Expand(defs, key, toks, depth); e.Circular? || e.Undefined?
    ensures Path(defs, path) && Reference(path[0]) in toks
    ensures Expand(defs, key, toks, depth).Circular? ==> Last(path) == key
    ensures Expand(defs, key, toks, depth).Undefined? ==>
              Last(path) == Expand(defs, key, toks, depth).variable && Last(path) !in defs
    decreases depth, |toks|
  {
    var t := toks[0];
    if ExpandToken(defs, key, t, depth).Resolved? {
      path := ProblemIsReached(defs, key, toks[1..], depth);
    } else if t.name == key || t.name !in defs {
      path := [t.name];
    } else {
      var below := ProblemIsReached(defs, key, defs[t.name], depth - 1);
      PathFrom(defs, t.name, below);
      path := [t.name] + below;
    }
  }

  lemma {:induction false} ResolvedToken(defs: Definitions, key: string, toks: seq<Token>, depth: nat, n: string)
    requires Expand(defs, key, toks, depth).Resolved? && Reference(n) in toks
    ensures n != key && n in defs && depth > 0 && Expand(defs, key, defs[n], depth - 1).Resolved?
    decreases |toks|
  {
    if toks[0] != Reference(n) { ResolvedToken(defs, key, toks[1..], depth, n); }
  }

  /** When the expansion succeeds, every variable it reaches is defined and is not the key. */
  lemma {:induction false} ResolvedReachesDefined(defs: Definitions, key: string, toks: seq<Token>, depth: nat,
                                                  path: seq<string>)
    requires Expand(defs, key, toks, depth).Resolved? && Path(defs, path) && Reference(path[0]) in toks
    ensures Last(path) in defs && Last(path) != key
    decreases |path|
  {
    ResolvedToken(defs, key, toks, depth, path[0]);
    if |path| > 1 {
      PathRest(defs, path);
      ResolvedReachesDefined(defs, key, defs[path[0]], depth - 1, path[1..]);
    }
  }

  /** A value resolves exactly if its loop ends, every variable reached from its key is defined, and none is the key. */
  lemma {:induction false} ResolvesIff(defs: Definitions, key: string)
    requires key in defs
    ensures Value(defs, key).Resolved? <==>
              && !RunsIntoCycle(defs, key)
              && forall path :: Path(defs, path) && |path| > 1 && path[0] == key ==>
                   Last(path) in defs && Last(path) != key
  {
    hide Expand, RunsIntoCycle;
    var e := Value(defs, key);
    if RunsIntoCycle(defs, key) { CycleStaysDeep(defs, key, |defs|); }
    if e.Resolved? {
      forall path | Path(defs, path) && |path| > 1 && path[0] == key ensures Last(path) in defs && Last(path) != key {
        PathRest(defs, path);
        ResolvedReachesDefined(defs, key, defs[key], |defs|, path[1..]);
      }
    } else if e.TooDeep? {
      DeepIsCycle(defs, key);
    } else {
      var path := ProblemIsReached(defs, key, defs[key], |defs|);
      PathFrom(defs, key, path);
      assert Last([key] + path) !in defs || Last([key] + path) == key;
    }
  }

  predicate Plain(s: string) {
    forall i :: 0 <= i < |s| ==> s[i] !in {'$', '{', '}'}
  }

  /** A resolved value holds no reference, nor any of its characters. */
  lemma {:induction false} ResolvedIsPlain(defs: Definitions, key: string, toks: seq<Token>, depth: nat)
    requires AllTokens(toks) && forall k :: k in defs ==> AllTokens(defs[k])
    ensures var e := Expand(defs, key, toks, depth); e.Resolved? ==> Plain(e.text)
    decreases depth, |toks|
  {
    if toks != [] {
      var t := toks[0];
      assert IsToken(t);
      ResolvedIsPlain(defs, key, toks[1..], depth);
      if t.Reference? && t.name != key && t.name in defs && depth > 0 {
        ResolvedIsPlain(defs, key, defs[t.name], depth - 1);
      }
    }
  }

  // ---- All keys ----

  /** No cycle at all. */
  ghost predicate Acyclic(defs: Definitions, rank: map<string, nat>) {
    && defs.Keys <= rank.Keys
    && forall k, n {:trigger rank[k], rank[n]} :: k in defs && n in defs && Reference(n) in defs[k] ==>
         rank[n] < rank[k]
  }

  lemma {:induction false} PathGoesDown(defs: Definitions, rank: map<string, nat>, path: seq<string>)
    requires Acyclic(defs, rank) && Path(defs, path) && |path| > 1 && Last(path) in defs
    ensures path[0] in defs && rank[Last(path)] < rank[path[0]]
    decreases |path|
  {
    PathRest(defs, path);
    assert path[1] in defs by { if |path| > 2 { PathRest(defs, path[1..]); } }
    if |path| > 2 { PathGoesDown(defs, rank, path[1..]); }
  }

  /** Without cycles there is none to run into. */
  lemma AcyclicEnds(defs: Definitions, rank: map<string, nat>, key: string)
    requires Acyclic(defs, rank) && key in defs
    ensures !RunsIntoCycle(defs, key)
  {
    forall path, i, j | Descent(defs, key, path) && 0 < i < j < |path| && path[0] == key ensures path[i] != path[j] {
      DescentParts(defs, key, path);
      var part := path[i..j + 1];
      forall x | 0 < x < |part| ensures Refers(defs, part[x - 1], part[x]) {
        assert ComesTo(defs, key, defs[path[i + x - 1]], path[i + x]);
      }
      PathGoesDown(defs, rank, part);
    }
  }

  datatype Outcome = AllResolved(values: map<string, string>) | Failed(key: string, problem: Resolution)

  /** Some key reaches a variable that is not defined. */
  ghost predicate ReachesUndefined(defs: Definitions, key: string, variable: string) {
    key in defs && variable !in defs && exists path :: Path(defs, path) && path[0] == key && Last(path) == variable
  }

  /** Without cycles a key fails exactly if it reaches an undefined variable, and is never circular. */
  lemma {:induction false} FailsIff(defs: Definitions, rank: map<string, nat>, key: string)
    requires Acyclic(defs, rank) && key in defs
    ensures !RunsIntoCycle(defs, key)
    ensures var e := Value(defs, key);
            && (e.Resolved? || e.Undefined?)
            && (e.Undefined? ==> ReachesUndefined(defs, key, e.variable))
            && (e.Resolved? ==> forall v :: !ReachesUndefined(defs, key, v))
  {
    hide Expand, RunsIntoCycle;
    AcyclicEnds(defs, rank, key);
    ResolvesIff(defs, key);
    var e := Value(defs, key);
    if e.TooDeep? {
      DeepIsCycle(defs, key);
    } else if !e.Resolved? {
      var path := ProblemIsReached(defs, key, defs[key], |defs|);
      PathFrom(defs, key, path);
      assert ([key] + path)[0] == key;
      if e.Circular? { PathGoesDown(defs, rank, [key] + path); }
    } else {
      forall v, path | v !in defs && Path(defs, path) && path[0] == key ensures Last(path) != v {}
    }
  }

  // ---- Resolved values as a solution of the definitions ----

  /** The text of a value with each reference replaced by the given value of its variable. */
  function Substituted(toks: seq<Token>, values: map<string, string>): string {
    if toks == [] then ""
    else
      var rest := Substituted(toks[1..], values);
      match toks[0]
      case Literal(c) => [c] + rest
      case Reference(n) => (if n in values then values[n] else "") + rest
  }

  /** Whichever key asks, what resolves resolves to the same text. */
  lemma {:induction false} ResolvedAgree(defs: Definitions, k: string, k': string, toks: seq<Token>, d: nat, d': nat)
    requires Expand(defs, k, toks, d).Resolved? && Expand(defs, k', toks, d').Resolved?
    ensures Expand(defs, k, toks, d) == Expand(defs, k', toks, d')
    decreases d, |toks|
  {
    if toks != [] {
      var t := toks[0];
      if t.Reference? { ResolvedAgree(defs, k, k', defs[t.name], d - 1, d' - 1); }
      ResolvedAgree(defs, k, k', toks[1..], d, d');
    }
  }

  /** The resolved values solve the definitions: each is its definition with every reference replaced by the
      referenced variable's own resolved value. */
  lemma {:induction false} ResolvedSolves(defs: Definitions, values: map<string, string>, key: string,
                                          toks: seq<Token>, depth: nat)
    requires values.Keys == defs.Keys && forall k :: k in defs ==> Value(defs, k) == Resolved(values[k])
    requires Expand(defs, key, toks, depth).Resolved?
    ensures Expand(defs, key, toks, depth) == Resolved(Substituted(toks, values))
    decreases |toks|
  {
    if toks != [] {
      var t := toks[0];
      if t.Reference? {
        assert Value(defs, t.name).Resolved?;
        ResolvedAgree(defs, key, t.name, defs[t.name], depth - 1, |defs|);
      }
      ResolvedSolves(defs, values, key, toks[1..], depth);
    }
  }

  /** resolveProps: whenever the loops of all keys end, it fails exactly if some key has a problem, with
      the problem of such a key; otherwise each value is the full expansion and holds no reference. */
  method ResolveProps(props: map<string, string>, ghost defs: Definitions) returns (r: Outcome)
    requires Defines(props, defs) && forall k :: k in props ==> !RunsIntoCycle(defs, k)
    ensures r.AllResolved? <==> forall k :: k in props ==> Value(defs, k).Resolved?
    ensures r.Failed? ==> r.key in props && r.problem == Value(defs, r.key) && !r.problem.Resolved?
    ensures r.AllResolved? ==>
              && r.values.Keys == props.Keys
              && forall k :: k in props ==> Plain(r.values[k]) && Value(defs, k) == Resolved(r.values[k])
    ensures r.AllResolved? ==> forall k :: k in props ==> r.values[k] == Substituted(defs[k], r.values)
  {
    hide Value, RunsIntoCycle, Plain;
    var resolved: map<string, string> := map[];
    var keys := props.Keys;
    while keys != {}
      invariant keys <= props.Keys && resolved.Keys == props.Keys - keys
      invariant forall k :: k in resolved ==> Plain(resolved[k]) && Value(defs, k) == Resolved(resolved[k])
      decreases keys
    {
      var key :| key in keys;
      keys := keys - {key};
      CyclesRun(props, defs, key);
      var value := ResolveValue(props, key, defs);
      if !value.Resolved? {
        return Failed(key, value);
      }
      ValueIsPlain(props, defs, key);
      resolved := resolved[key := value.text];
    }
    AllSolve(defs, resolved);
    return AllResolved(resolved);
  }

  lemma AllSolve(defs: Definitions, values: map<string, string>)
    requires values.Keys == defs.Keys && forall k :: k in defs ==> Value(defs, k) == Resolved(values[k])
    ensures forall k :: k in defs ==> values[k] == Substituted(defs[k], values)
  {
    forall k | k in defs ensures values[k] == Substituted(defs[k], values) {
      ResolvedSolves(defs, values, k, defs[k], |defs|);
    }
  }

  lemma ValueIsPlain(props: map<string, string>, defs: Definitions, key: string)
    requires Defines(props, defs) && key in defs
    ensures Value(defs, key).Resolved? ==> Plain(Value(defs, key).text)
  {
    ResolvedIsPlain(defs, key, defs[key], |defs|);
  }
}
