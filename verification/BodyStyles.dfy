/** Inline styles for the bare tags of an authored e-mail body. */
module BodyStyles {
  import opened Options
  import opened TagScanner
  import opened Texts

  datatype Result<T> = Ok(value: T) | KeyError(key: string)

  // ---------------------------------------------------------------- tag names

  predicate KnownTag(tag: string) {
    || (|tag| == 1 && (tag[0] == 'p' || tag[0] == 'a'))
    || (|tag| == 2 && tag[0] == 'h' && (tag[1] == '1' || tag[1] == '2' || tag[1] == '3'))
    || (|tag| == 2 && (tag[0] == 'u' || tag[0] == 'o') && tag[1] == 'l')
    || (|tag| == 2 && tag[0] == 'l' && tag[1] == 'i')
  }

  function TextStyle(): (style: string)
    ensures '>' !in style
  {
    "margin:0 0 16px;color:#374151"
  }

  function ListStyle(marker: string): (style: string)
    requires '>' !in marker
    ensures '>' !in style
  {
    TextStyle() + ";padding-left:24px;list-style-type:" + marker
  }

  function HeadingStyle(margin: string, size: string): (style: string)
    requires '>' !in margin && '>' !in size
    ensures '>' !in style
  {
    "margin:0 0 " + margin + ";color:#2C474B;font-size:" + size
  }

  function BrandStyle(tag: string): (style: string)
    requires KnownTag(tag)
    ensures '>' !in style
  {
    match tag[0]
    case 'p' => TextStyle()
    case 'a' => "color:#eb5f1e"
    case 'u' => ListStyle("disc")
    case 'o' => ListStyle("decimal")
    case 'l' => "margin:0 0 8px;color:#374151"
    case _ =>
      match tag[1]
      case '1' => HeadingStyle("16px", "22px")
      case '2' => HeadingStyle("16px", "18px")
      case _ => HeadingStyle("12px", "16px")
  }

  /** Two letters besides i and I that an ignore-case pattern takes for an i. */
  predicate OddI(c: char) {
    c == '\U{0130}' || c == '\U{0131}'
  }

  function FoldChar(c: char): char {
    if OddI(c) then 'i' else LowerChar(c)
  }

  function Fold(s: string): (r: string)
    ensures |r| == |s| && forall i :: 0 <= i < |s| ==> r[i] == FoldChar(s[i])
  {
    seq(|s|, i requires 0 <= i < |s| => FoldChar(s[i]))
  }

  predicate StyleAt(attrs: string, i: int) {
    0 <= i && i + 6 <= |attrs| && Lower(attrs[i..i + 6]) == "style="
  }

  predicate HasStyle(attrs: string) {
    exists i: int :: 0 <= i < |attrs| && StyleAt(attrs, i)
  }

  /** The names the pattern takes, case ignored. */
  function TagName(): string -> bool {
    (name: string) => KnownTag(Fold(name))
  }

  function Split(html: string): seq<Token> {
    Tokens(TagName(), html)
  }

  // ---------------------------------------------------------------- the substitution

  function Insertion(style: string): string {
    " style=\"" + style + "\""
  }

  function StyledToken(t: Token): Result<Token> {
    if t.Text? || HasStyle(t.attrs) then Ok(t)
    else if KnownTag(Lower(t.name)) then Ok(Tag(t.name, t.attrs + Insertion(BrandStyle(Lower(t.name)))))
    else KeyError(Lower(t.name))
  }

  /** f on every element in order; the first error stops everything. */
  function TryAll<T>(f: T -> Result<T>, s: seq<T>): (r: Result<seq<T>>)
    ensures r.Ok? ==> |r.value| == |s| && forall i :: 0 <= i < |s| ==> f(s[i]) == Ok(r.value[i])
  {
    if s == [] then Ok([])
    else match f(s[0])
      case KeyError(key) => KeyError(key)
      case Ok(first) =>
        match TryAll(f, s[1..])
        case KeyError(key) => KeyError(key)
        case Ok(rest) => Ok([first] + rest)
  }

  function StyledTokens(tokens: seq<Token>): Result<seq<Token>> {
    TryAll(StyledToken, tokens)
  }

  function ApplyBodyStyles(html: string): Result<string> {
    match StyledTokens(Split(html))
    case KeyError(key) => KeyError(key)
    case Ok(tokens) => Ok(PrintAll(tokens))
  }

  // ---------------------------------------------------------------- one tag

  lemma {:induction false} NamesAreShort()
    ensures ShortNames(TagName())
  {
    forall name: string | TagName()(name)
      ensures 1 <= |name| <= 2 && !Bracket(name[0]) && (|name| == 2 ==> !Bracket(name[1]) && !Space(name[1]))
    {
      NameIsShort(name);
    }
  }

  lemma {:induction false} NameIsShort(name: string)
    requires KnownTag(Fold(name))
    ensures 1 <= |name| <= 2 && !Bracket(name[0]) && (|name| == 2 ==> !Bracket(name[1]) && !Space(name[1]))
  {
  }

  lemma {:induction false} InsertedStyleShows(attrs: string, style: string)
    ensures HasStyle(attrs + Insertion(style))
  {
    var i := |attrs| + 1;
    assert (attrs + Insertion(style))[i..i + 6] == "style=";
    assert Lower("style=") == "style=";
    assert StyleAt(attrs + Insertion(style), i);
  }

  lemma {:induction false} InsertionKeepsMatchable(tag: string -> bool, name: string, attrs: string, style: string)
    requires Matchable(tag, name, attrs) && '>' !in style
    ensures Matchable(tag, name, attrs + Insertion(style))
  {
  }

  lemma {:induction false} StyledTokenRestyles(t: Token)
    requires (t.Tag? ==> Matchable(TagName(), t.name, t.attrs)) && StyledToken(t).Ok?
    ensures Restyles(TagName(), t, StyledToken(t).value)
  {
    if t.Tag? && !HasStyle(t.attrs) {
      InsertionKeepsMatchable(TagName(), t.name, t.attrs, BrandStyle(Lower(t.name)));
    }
  }

  lemma {:induction false} StyledTextScans(html: string)
    requires StyledTokens(Split(html)).Ok?
    ensures Split(PrintAll(StyledTokens(Split(html)).value)) == StyledTokens(Split(html)).value
  {
    var tokens, styled := Split(html), StyledTokens(Split(html)).value;
    TokensAreMatchable(TagName(), html);
    forall i | 0 <= i < |tokens| ensures Restyles(TagName(), tokens[i], styled[i]) {
      assert FromAMatch(TagName(), tokens[i]);
      assert StyledToken(tokens[i]) == Ok(styled[i]);
      StyledTokenRestyles(tokens[i]);
    }
    NamesAreShort();
    RestyledTextScans(TagName(), html, styled);
  }

  // ---------------------------------------------------------------- main results

  /** A token is either unchanged, or it is a tag without a style attribute that only gained the brand
      style of its name. */
  predicate OnlyGained(t: Token, t': Token) {
    if t.Text? || HasStyle(t.attrs) then t' == t
    else && t'.Tag? && t'.name == t.name && HasStyle(t'.attrs)
         && KnownTag(Lower(t.name)) && t'.attrs == t.attrs + Insertion(BrandStyle(Lower(t.name)))
  }

  lemma {:induction false} StyledTokenOnlyGains(t: Token)
    requires StyledToken(t).Ok?
    ensures OnlyGained(t, StyledToken(t).value)
  {
    if t.Tag? && !HasStyle(t.attrs) {
      InsertedStyleShows(t.attrs, BrandStyle(Lower(t.name)));
    }
  }

  /** The output splits at the same places as the input, and token by token it only gained styles: taking
      the insertions out gives the input back. */
  lemma {:induction false} StylingIsConservative(html: string)
    requires ApplyBodyStyles(html).Ok?
    ensures var before, after := Split(html), Split(ApplyBodyStyles(html).value);
            && PrintAll(before) == html && PrintAll(after) == ApplyBodyStyles(html).value && |after| == |before|
            && forall i :: 0 <= i < |before| ==> OnlyGained(before[i], after[i])
  {
    TokensLoseNothing(TagName(), html);
    StyledTextScans(html);
    var before, after := Split(html), StyledTokens(Split(html)).value;
    forall i | 0 <= i < |before| ensures OnlyGained(before[i], after[i]) {
      assert StyledToken(before[i]) == Ok(after[i]);
      StyledTokenOnlyGains(before[i]);
    }
  }

  lemma {:induction false} TryAllFixed<T>(f: T -> Result<T>, s: seq<T>)
    requires forall i :: 0 <= i < |s| ==> f(s[i]) == Ok(s[i])
    ensures TryAll(f, s) == Ok(s)
  {
    if s != [] {
      TryAllFixed(f, s[1..]);
      assert [s[0]] + s[1..] == s;
    }
  }

  lemma {:induction false} TryAllFails<T>(f: T -> Result<T>, s: seq<T>)
    ensures TryAll(f, s).KeyError? <==> exists i :: 0 <= i < |s| && f(s[i]).KeyError?
  {
    if s != [] {
      TryAllFails(f, s[1..]);
      assert forall i :: 1 <= i < |s| ==> s[i] == s[1..][i - 1];
    }
  }

  lemma {:induction false} StylingIsIdempotent(html: string)
    requires ApplyBodyStyles(html).Ok?
    ensures ApplyBodyStyles(ApplyBodyStyles(html).value) == ApplyBodyStyles(html)
  {
    StylingIsConservative(html);
    var before, after := Split(html), Split(ApplyBodyStyles(html).value);
    forall i | 0 <= i < |after| ensures StyledToken(after[i]) == Ok(after[i]) {
      assert OnlyGained(before[i], after[i]);
    }
    TryAllFixed(StyledToken, after);
  }

  // ---------------------------------------------------------------- when it raises

  /** A list item whose i is one of the two odd letters. */
  predicate OddListItem(t: Token) {
    t.Tag? && !HasStyle(t.attrs) && exists i :: 0 <= i < |t.name| && OddI(t.name[i])
  }

  lemma {:induction false} OddNamesHaveNoStyle(name: string)
    requires KnownTag(Fold(name))
    ensures !KnownTag(Lower(name)) <==> exists i :: 0 <= i < |name| && OddI(name[i])
  {
  }

  lemma {:induction false} UnstyledTag(t: Token)
    requires t.Tag? && Matchable(TagName(), t.name, t.attrs)
    ensures StyledToken(t).KeyError? <==> OddListItem(t)
  {
    OddNamesHaveNoStyle(t.name);
  }

  predicate HasOddListItem(tokens: seq<Token>) {
    exists i :: 0 <= i < |tokens| && OddListItem(tokens[i])
  }

  /** It raises exactly on the texts with an unstyled list item spelt with one of the odd letters. */
  lemma {:induction false} RaisesIffOddListItem(html: string)
    ensures ApplyBodyStyles(html).KeyError? <==> HasOddListItem(Split(html))
  {
    var tokens := Split(html);
    TryAllFails(StyledToken, tokens);
    TokensAreMatchable(TagName(), html);
    forall i | 0 <= i < |tokens| ensures StyledToken(tokens[i]).KeyError? <==> OddListItem(tokens[i]) {
      if tokens[i].Tag? {
        assert FromAMatch(TagName(), tokens[i]);
        UnstyledTag(tokens[i]);
      }
    }
  }

  lemma {:induction false} OddNameIsATag(name: string)
    requires |name| == 2 && name[0] == 'l' && name[1] == '\U{0131}'
    ensures KnownTag(Fold(name))
  {
  }

  lemma {:induction false} OddTagIsFound(s: string)
    requires |s| == 4 && s[0] == '<' && s[1] == 'l' && s[2] == '\U{0131}' && s[3] == '>'
    ensures MatchAt(TagName(), s) == Some(Tag(s[1..3], ""))
  {
    OddNameIsATag(s[1..3]);
    assert Matchable(TagName(), s[1..3], "") && Spells(s, s[1..3], "");
    PrefixSpells(s, s[1..3], "");
    NamesAreShort();
    MatchAtIsTheMatch(TagName(), s, s[1..3], "");
  }

  /** The shortest such text. */
  lemma {:induction false} OddListItemExample(s: string)
    requires |s| == 4 && s[0] == '<' && s[1] == 'l' && s[2] == '\U{0131}' && s[3] == '>'
    ensures ApplyBodyStyles(s).KeyError?
  {
    OddTagIsFound(s);
    HeadToken(TagName(), s);
    assert Split(s)[0] == Tag(s[1..3], "");
    assert OddI(s[1..3][1]);
    assert OddListItem(Split(s)[0]);
    RaisesIffOddListItem(s);
  }
}
