/** Splitting a text at the tags of given names, as the substitution with a pattern does: left to right,
    never overlapping. */
module TagScanner {
  import opened Options

  /** A tag that the pattern matches, or one character that belongs to no match. */
  datatype Token = Text(c: char) | Tag(name: string, attrs: string)

  function Print(t: Token): string {
    match t case Text(c) => [c] case Tag(name, attrs) => "<" + name + attrs + ">"
  }

  function PrintAll(tokens: seq<Token>): string {
    if tokens == [] then "" else Print(tokens[0]) + PrintAll(tokens[1..])
  }

  /** What the pattern \s matches. */
  predicate Space(c: char) {
    || '\U{0009}' <= c <= '\U{000D}' || '\U{001C}' <= c <= '\U{0020}' || c == '\U{0085}' || c == '\U{00A0}'
    || c == '\U{1680}' || '\U{2000}' <= c <= '\U{200A}' || c == '\U{2028}' || c == '\U{2029}'
    || c == '\U{202F}' || c == '\U{205F}' || c == '\U{3000}'
  }

  predicate Bracket(c: char) {
    c == '<' || c == '>'
  }

  /** Names have one or two characters, none of them a bracket, and the second is no space. */
  ghost predicate ShortNames(tag: string -> bool) {
    forall name :: tag(name) ==>
      1 <= |name| <= 2 && !Bracket(name[0]) && (|name| == 2 ==> !Bracket(name[1]) && !Space(name[1]))
  }

  /** name is one of the names, and attrs is empty or starts with a space and closes nothing. */
  predicate Matchable(tag: string -> bool, name: string, attrs: string) {
    tag(name) && (attrs == "" || Space(attrs[0])) && '>' !in attrs
  }

  /** The pattern matches at the start of s, with these two groups. */
  predicate MatchesWith(tag: string -> bool, s: string, name: string, attrs: string) {
    Matchable(tag, name, attrs) && Print(Tag(name, attrs)) <= s
  }

  function FirstClose(s: string, from: nat): (at: nat)
    requires from <= |s|
    ensures from <= at <= |s| && (at < |s| ==> s[at] == '>')
    ensures forall i :: from <= i < at ==> s[i] != '>'
    decreases |s| - from
  {
    if from == |s| || s[from] == '>' then from else FirstClose(s, from + 1)
  }

  /** Try the names of length n. */
  function MatchNamed(tag: string -> bool, s: string, n: nat): Option<Token> {
    if n + 1 < |s| && s[0] == '<' && tag(s[1..n + 1]) && (s[n + 1] == '>' || Space(s[n + 1])) && FirstClose(s, n + 1) < |s| then
      Some(Tag(s[1..n + 1], s[n + 1..FirstClose(s, n + 1)]))
    else None
  }

  function MatchAt(tag: string -> bool, s: string): Option<Token> {
    if MatchNamed(tag, s, 1).Some? then MatchNamed(tag, s, 1) else MatchNamed(tag, s, 2)
  }

  function Tokens(tag: string -> bool, s: string): seq<Token>
    decreases |s|
  {
    if s == "" then []
    else match MatchAt(tag, s)
      case None => [Text(s[0])] + Tokens(tag, s[1..])
      case Some(m) => [m] + (if |Print(m)| <= |s| then Tokens(tag, s[|Print(m)|..]) else [])
  }

  // ---------------------------------------------------------------- the match at one place

  /** Position by position. */
  predicate Spells(s: string, name: string, attrs: string) {
    && |name| + |attrs| + 2 <= |s| && s[0] == '<' && s[|name| + |attrs| + 1] == '>'
    && (forall i :: 0 <= i < |name| ==> s[i + 1] == name[i])
    && (forall i :: 0 <= i < |attrs| ==> s[i + |name| + 1] == attrs[i])
  }

  lemma {:induction false} PrefixSpells(s: string, name: string, attrs: string)
    ensures Print(Tag(name, attrs)) <= s <==> Spells(s, name, attrs)
  {
    var p := "<" + name + attrs + ">";
    assert p[0] == '<' && p[|p| - 1] == '>';
    assert forall i :: 0 <= i < |name| ==> p[i + 1] == name[i];
    assert forall i :: 0 <= i < |attrs| ==> p[i + |name| + 1] == attrs[i];
    if Spells(s, name, attrs) {
      forall i | 0 <= i < |p| ensures s[i] == p[i] {
        if 0 < i <= |name| {
          assert p[i] == name[i - 1] == s[i - 1 + 1];
        } else if |name| < i < |p| - 1 {
          assert p[i] == attrs[i - |name| - 1] == s[i - |name| - 1 + |name| + 1];
        }
      }
    }
  }

  lemma {:induction false} MatchNamedFinds(tag: string -> bool, s: string, name: string, attrs: string)
    requires Matchable(tag, name, attrs) && Spells(s, name, attrs)
    ensures MatchNamed(tag, s, |name|) == Some(Tag(name, attrs))
  {
    var n := |name|;
    assert s[1..n + 1] == name;
    if attrs != "" {
      assert s[n + 1] == attrs[0];
    }
    assert forall i :: n + 1 <= i < n + 1 + |attrs| ==> s[i] == attrs[i - n - 1];
    assert FirstClose(s, n + 1) == n + 1 + |attrs|;
    assert s[n + 1..n + 1 + |attrs|] == attrs;
  }

  lemma {:induction false} MatchNamedIsAMatch(tag: string -> bool, s: string, n: nat)
    requires MatchNamed(tag, s, n).Some?
    ensures var m := MatchNamed(tag, s, n).value;
            m.Tag? && |m.name| == n && Matchable(tag, m.name, m.attrs) && Spells(s, m.name, m.attrs)
  {
  }

  lemma {:induction false} OneLengthOnly(tag: string -> bool, s: string)
    requires ShortNames(tag) && MatchNamed(tag, s, 1).Some?
    ensures MatchNamed(tag, s, 2).None?
  {
  }

  /** The scanner finds the one match there is at the start of s, if there is one. */
  lemma {:induction false} MatchAtIsTheMatch(tag: string -> bool, s: string, name: string, attrs: string)
    requires ShortNames(tag)
    ensures MatchAt(tag, s) == Some(Tag(name, attrs)) <==> MatchesWith(tag, s, name, attrs)
  {
    PrefixSpells(s, name, attrs);
    if MatchesWith(tag, s, name, attrs) {
      MatchNamedFinds(tag, s, name, attrs);
      if MatchNamed(tag, s, 1).Some? {
        OneLengthOnly(tag, s);
      }
    } else if MatchNamed(tag, s, 1).Some? {
      MatchNamedIsAMatch(tag, s, 1);
    } else if MatchNamed(tag, s, 2).Some? {
      MatchNamedIsAMatch(tag, s, 2);
    }
  }

  /** What MatchAt returns is a tag that s starts with. */
  lemma {:induction false} FoundIsAPrefix(tag: string -> bool, s: string)
    requires MatchAt(tag, s).Some?
    ensures var m := MatchAt(tag, s).value;
            m.Tag? && Matchable(tag, m.name, m.attrs) && Spells(s, m.name, m.attrs) && s == Print(m) + s[|Print(m)|..]
  {
    MatchNamedIsAMatch(tag, s, if MatchNamed(tag, s, 1).Some? then 1 else 2);
    var m := MatchAt(tag, s).value;
    PrefixSpells(s, m.name, m.attrs);
  }

  lemma {:induction false} HeadToken(tag: string -> bool, s: string)
    requires s != ""
    ensures MatchAt(tag, s).None? ==> Tokens(tag, s) == [Text(s[0])] + Tokens(tag, s[1..])
    ensures MatchAt(tag, s).Some? ==> |Print(MatchAt(tag, s).value)| <= |s|
    ensures MatchAt(tag, s).Some? ==>
              Tokens(tag, s) == [MatchAt(tag, s).value] + Tokens(tag, s[|Print(MatchAt(tag, s).value)|..])
  {
  }

  lemma {:induction false} PrintHead(token: Token, rest: seq<Token>)
    ensures PrintAll([token] + rest) == Print(token) + PrintAll(rest)
  {
  }

  /** Printing the tokens gives the text back. */
  lemma {:induction false} TokensLoseNothing(tag: string -> bool, s: string)
    ensures PrintAll(Tokens(tag, s)) == s
    decreases |s|
  {
    if s != "" {
      HeadToken(tag, s);
      match MatchAt(tag, s)
      case None =>
        TokensLoseNothing(tag, s[1..]);
        PrintHead(Text(s[0]), Tokens(tag, s[1..]));
        assert s == [s[0]] + s[1..];
      case Some(m) =>
        FoundIsAPrefix(tag, s);
        TokensLoseNothing(tag, s[|Print(m)|..]);
        PrintHead(m, Tokens(tag, s[|Print(m)|..]));
    }
  }

  predicate FromAMatch(tag: string -> bool, t: Token) {
    t.Tag? ==> Matchable(tag, t.name, t.attrs)
  }

  lemma {:induction false} TokensAreMatchable(tag: string -> bool, s: string)
    ensures forall t :: t in Tokens(tag, s) ==> FromAMatch(tag, t)
    decreases |s|
  {
    if s != "" {
      HeadToken(tag, s);
      match MatchAt(tag, s)
      case None => TokensAreMatchable(tag, s[1..]);
      case Some(m) =>
        FoundIsAPrefix(tag, s);
        TokensAreMatchable(tag, s[|Print(m)|..]);
    }
  }

  // ---------------------------------------------------------------- changing attributes

  /** t' is t, or t with other attributes that the pattern still matches. */
  predicate Restyles(tag: string -> bool, t: Token, t': Token) {
    t' == t || (t.Tag? && t'.Tag? && t'.name == t.name && Matchable(tag, t'.name, t'.attrs))
  }

  ghost predicate RestylesAll(tag: string -> bool, tokens: seq<Token>, tokens': seq<Token>) {
    |tokens'| == |tokens| && forall i :: 0 <= i < |tokens| ==> Restyles(tag, tokens[i], tokens'[i])
  }

  /** No '<' before position i. */
  predicate Plain(t: string, i: nat) {
    forall j :: 0 <= j < i && j < |t| ==> t[j] != '<'
  }

  /** Up to and including the first '<', and as to whether a '>' occurs, two texts look the same. */
  ghost predicate SameLead(s: string, t: string) {
    && ('>' in t ==> '>' in s)
    && forall i :: 0 <= i < |t| && Plain(t, i) ==> i < |s| && s[i] == t[i]
  }

  lemma {:induction false} LeadCarriesTheName(tag: string -> bool, s: string, t: string, name: string, attrs: string)
    requires ShortNames(tag) && Matchable(tag, name, attrs) && s != "" && Spells([s[0]] + t, name, attrs) && SameLead(s[1..], t)
    ensures |name| + 1 < |s| && s[0] == '<' && s[1..|name| + 1] == name
    ensures (s[|name| + 1] == '>' || Space(s[|name| + 1])) && '>' in s[1..]
  {
  }

  lemma {:induction false} NamedTagMatches(tag: string -> bool, s: string, name: string)
    requires ShortNames(tag) && tag(name) && |name| + 1 < |s| && s[0] == '<' && s[1..|name| + 1] == name
    requires (s[|name| + 1] == '>' || Space(s[|name| + 1])) && '>' in s[1..]
    ensures MatchNamed(tag, s, |name|).Some?
  {
  }

  /** A '<' that starts no match still starts none when attributes change further on. */
  lemma {:induction false} NoNewMatch(tag: string -> bool, s: string, t: string)
    requires ShortNames(tag) && s != "" && SameLead(s[1..], t) && MatchAt(tag, [s[0]] + t).Some?
    ensures MatchAt(tag, s).Some?
  {
    var u := [s[0]] + t;
    FoundIsAPrefix(tag, u);
    var name, attrs := MatchAt(tag, u).value.name, MatchAt(tag, u).value.attrs;
    LeadCarriesTheName(tag, s, t, name, attrs);
    NamedTagMatches(tag, s, name);
  }

  lemma {:induction false} LeadOfText(s: string, out: string)
    requires s != "" && out != "" && s[0] == out[0] && SameLead(s[1..], out[1..])
    ensures SameLead(s, out)
  {
    forall i | 0 <= i < |out| && Plain(out, i) ensures i < |s| && s[i] == out[i] {
      if i > 0 {
        assert forall j :: 0 <= j < |out| - 1 ==> out[1..][j] == out[j + 1];
        assert Plain(out[1..], i - 1);
        assert s[1..][i - 1] == out[1..][i - 1];
      }
    }
    if '>' in out && out[0] != '>' {
      var k :| 0 <= k < |out| && out[k] == '>';
      assert out[1..][k - 1] == '>';
    }
  }

  lemma {:induction false} LeadOfTag(s: string, out: string, name: string, attrs: string)
    requires Spells(s, name, attrs) && out != "" && out[0] == '<'
    ensures SameLead(s, out)
  {
  }

  /** Changing attributes moves no token boundary: the changed text splits into the changed tokens. */
  lemma {:induction false} RestyledTextScans(tag: string -> bool, s: string, tokens': seq<Token>)
    requires ShortNames(tag) && RestylesAll(tag, Tokens(tag, s), tokens')
    ensures Tokens(tag, PrintAll(tokens')) == tokens' && SameLead(s, PrintAll(tokens'))
    decreases |s|
  {
    if s != "" {
      HeadToken(tag, s);
      var out, rest := PrintAll(tokens'), PrintAll(tokens'[1..]);
      assert Restyles(tag, Tokens(tag, s)[0], tokens'[0]);
      match MatchAt(tag, s)
      case None =>
        TailRestyles(tag, Tokens(tag, s), Tokens(tag, s[1..]), tokens');
        RestyledTextScans(tag, s[1..], tokens'[1..]);
        TextStays(tag, s, rest);
        assert out == [s[0]] + rest;
      case Some(m) =>
        var after := s[|Print(m)|..];
        TailRestyles(tag, Tokens(tag, s), Tokens(tag, after), tokens');
        RestyledTextScans(tag, after, tokens'[1..]);
        FoundIsAPrefix(tag, s);
        TagStays(tag, s, m, tokens'[0], rest);
    }
  }

  lemma {:induction false} TailRestyles(tag: string -> bool, tokens: seq<Token>, tail: seq<Token>, tokens': seq<Token>)
    requires RestylesAll(tag, tokens, tokens') && tokens != [] && tokens[1..] == tail
    ensures RestylesAll(tag, tail, tokens'[1..]) && tokens' == [tokens'[0]] + tokens'[1..]
  {
  }

  lemma {:induction false} TextStays(tag: string -> bool, s: string, rest: string)
    requires ShortNames(tag) && s != "" && MatchAt(tag, s).None? && SameLead(s[1..], rest)
    ensures Tokens(tag, [s[0]] + rest) == [Text(s[0])] + Tokens(tag, rest) && SameLead(s, [s[0]] + rest)
  {
    var out := [s[0]] + rest;
    assert out[1..] == rest;
    if MatchAt(tag, out).Some? {
      NoNewMatch(tag, s, rest);
    }
    HeadToken(tag, out);
    LeadOfText(s, out);
  }

  lemma {:induction false} TagStays(tag: string -> bool, s: string, m: Token, m': Token, rest: string)
    requires ShortNames(tag) && m.Tag? && m'.Tag? && Spells(s, m.name, m.attrs) && Matchable(tag, m'.name, m'.attrs)
    ensures Tokens(tag, Print(m') + rest) == [m'] + Tokens(tag, rest) && SameLead(s, Print(m') + rest)
  {
    var out := Print(m') + rest;
    assert out[|Print(m')|..] == rest && Print(m') <= out;
    MatchAtIsTheMatch(tag, out, m'.name, m'.attrs);
    HeadToken(tag, out);
    LeadOfTag(s, out, m.name, m.attrs);
  }
}
