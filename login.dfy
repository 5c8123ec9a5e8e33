/** The sign-in form's input sanitiser: trim, HTML-escape, strip control
    characters, optionally keep only letters and digits, and truncate. */
module Login {
  import opened Wrappers

  /** The length limit when the caller gives none. */
  const DEFAULT_MAX_LENGTH: int := 100
  /** The length limit the form's change handler passes for every field. */
  const FIELD_MAX_LENGTH: int := 50

  // ---------------------------------------------------------------- trim

  /** The characters String.prototype.trim removes: white space and line terminators. */
  predicate IsTrimSpace(c: char) {
    c == '\t' || c == '\n' || c == '\U{B}' || c == '\U{C}' || c == '\r' || c == ' ' ||
    c == '\U{A0}' || c == '\U{FEFF}' || c == '\U{1680}' ||
    ('\U{2000}' <= c <= '\U{200A}') || c == '\U{2028}' || c == '\U{2029}' ||
    c == '\U{202F}' || c == '\U{205F}' || c == '\U{3000}'
  }

  /** Drops white space from the front. */
  function TrimStart(s: string): (r: string)
    ensures |r| <= |s| && r == s[|s| - |r|..]
    ensures forall i :: 0 <= i < |s| - |r| ==> IsTrimSpace(s[i])
    ensures |r| > 0 ==> !IsTrimSpace(r[0])
  {
    if |s| > 0 && IsTrimSpace(s[0]) then TrimStart(s[1..]) else s
  }

  /** Drops white space from the back. */
  function TrimEnd(s: string): (r: string)
    ensures |r| <= |s| && r == s[..|r|]
    ensures forall i :: |r| <= i < |s| ==> IsTrimSpace(s[i])
    ensures |r| > 0 ==> !IsTrimSpace(r[|r| - 1])
  {
    if |s| > 0 && IsTrimSpace(s[|s| - 1]) then TrimEnd(s[..|s| - 1]) else s
  }

  /** String.prototype.trim. */
  function Trim(s: string): string {
    TrimEnd(TrimStart(s))
  }

  // ---------------------------------------------------------------- escaping

  /** `s.replace(/c/g, rep)`: every occurrence of `c` replaced by `rep`. */
  function ReplaceChar(s: string, c: char, rep: string): (r: string)
    ensures c !in s ==> r == s
    ensures c !in rep ==> c !in r
  {
    if |s| == 0 then []
    else (if s[0] == c then rep else [s[0]]) + ReplaceChar(s[1..], c, rep)
  }

  /** Replacing characters distributes over concatenation. */
  lemma {:induction false} ReplaceCharAppend(a: string, b: string, c: char, rep: string)
    ensures ReplaceChar(a + b, c, rep) == ReplaceChar(a, c, rep) + ReplaceChar(b, c, rep)
  {
    if |a| > 0 {
      assert (a + b)[1..] == a[1..] + b;
      ReplaceCharAppend(a[1..], b, c, rep);
    } else {
      assert a + b == b;
    }
  }

  /** The five replace passes in their order, ampersand first. */
  function EscapePasses(s: string): string {
    var amp := ReplaceChar(s, '&', "&amp;");
    var lt := ReplaceChar(amp, '<', "&lt;");
    var gt := ReplaceChar(lt, '>', "&gt;");
    var quot := ReplaceChar(gt, '"', "&quot;");
    ReplaceChar(quot, '\'', "&#039;")
  }

  /** The entity of one character; any other character stands for itself. */
  function EscapeChar(c: char): string {
    match c
    case '&' => "&amp;"
    case '<' => "&lt;"
    case '>' => "&gt;"
    case '"' => "&quot;"
    case '\'' => "&#039;"
    case _ => [c]
  }

  /** The characters that may not appear raw in escaped text. */
  predicate Markup(c: char) {
    c == '<' || c == '>' || c == '"' || c == '\''
  }

  predicate NoMarkup(s: string) { forall i :: 0 <= i < |s| ==> !Markup(s[i]) }

  /** Every character escaped once, independently of the others. */
  function EscapeEach(s: string): (r: string)
    ensures NoMarkup(r)
  {
    if |s| == 0 then []
    else
      var head := EscapeChar(s[0]);
      var rest := EscapeEach(s[1..]);
      assert forall i :: 0 <= i < |head| ==> !Markup(head[i]);
      head + rest
  }

  lemma ReplaceOne(c: char, d: char, rep: string)
    ensures ReplaceChar([c], d, rep) == if c == d then rep else [c]
  {
    assert ReplaceChar([c], d, rep) == (if c == d then rep else [c]) + ReplaceChar([], d, rep);
  }

  /** One character goes through the five passes as its entity. */
  lemma EscapePassesChar(c: char)
    ensures EscapePasses([c]) == EscapeChar(c)
  {
    ReplaceOne(c, '&', "&amp;");
    if c == '&' {
      assert '<' !in "&amp;" && '>' !in "&amp;" && '"' !in "&amp;" && '\'' !in "&amp;";
    } else {
      ReplaceOne(c, '<', "&lt;");
      if c == '<' {
        assert '>' !in "&lt;" && '"' !in "&lt;" && '\'' !in "&lt;";
      } else {
        ReplaceOne(c, '>', "&gt;");
        if c == '>' {
          assert '"' !in "&gt;" && '\'' !in "&gt;";
        } else {
          ReplaceOne(c, '"', "&quot;");
          if c == '"' {
            assert '\'' !in "&quot;";
          } else {
            ReplaceOne(c, '\'', "&#039;");
          }
        }
      }
    }
  }

  lemma {:induction false} EscapePassesAppend(a: string, b: string)
    ensures EscapePasses(a + b) == EscapePasses(a) + EscapePasses(b)
  {
    var amp := ReplaceChar(a, '&', "&amp;");
    var amp' := ReplaceChar(b, '&', "&amp;");
    ReplaceCharAppend(a, b, '&', "&amp;");
    var lt := ReplaceChar(amp, '<', "&lt;");
    var lt' := ReplaceChar(amp', '<', "&lt;");
    ReplaceCharAppend(amp, amp', '<', "&lt;");
    var gt := ReplaceChar(lt, '>', "&gt;");
    var gt' := ReplaceChar(lt', '>', "&gt;");
    ReplaceCharAppend(lt, lt', '>', "&gt;");
    var quot := ReplaceChar(gt, '"', "&quot;");
    var quot' := ReplaceChar(gt', '"', "&quot;");
    ReplaceCharAppend(gt, gt', '"', "&quot;");
    ReplaceCharAppend(quot, quot', '\'', "&#039;");
  }

  /** Because the ampersand is replaced first, the five passes escape every
      character exactly once: no entity produced by one pass is escaped again
      by a later one (`<` becomes `&lt;`, never `&amp;lt;`). */
  lemma {:induction false} EscapePassesEscapeOnce(s: string)
    ensures EscapePasses(s) == EscapeEach(s)
  {
    if |s| > 0 {
      assert s == [s[0]] + s[1..];
      EscapePassesAppend([s[0]], s[1..]);
      EscapePassesChar(s[0]);
      EscapePassesEscapeOnce(s[1..]);
    } else {
      assert ReplaceChar(s, '&', "&amp;") == s;
    }
  }

  // ---------------------------------------------------------------- filters

  /** U+0000 to U+001F and U+007F. */
  predicate IsControl(c: char) {
    c <= '\U{1F}' || c == '\U{7F}'
  }

  predicate IsAlphanumeric(c: char) {
    ('a' <= c <= 'z') || ('A' <= c <= 'Z') || ('0' <= c <= '9')
  }

  predicate NoControl(s: string) { forall i :: 0 <= i < |s| ==> !IsControl(s[i]) }

  predicate AllAlphanumeric(s: string) { forall i :: 0 <= i < |s| ==> IsAlphanumeric(s[i]) }

  /** `s.replace(/[\x00-\x1F\x7F]/g, "")`: the control characters removed, the
      rest kept in order. */
  function StripControl(s: string): (r: string)
    ensures |r| <= |s| && NoControl(r)
    ensures NoMarkup(s) ==> NoMarkup(r)
    ensures NoControl(s) ==> r == s
  {
    if |s| == 0 then []
    else if IsControl(s[0]) then StripControl(s[1..])
    else [s[0]] + StripControl(s[1..])
  }

  /** `s.replace(/[^a-zA-Z0-9]/g, "")`: only letters and digits kept, in order. */
  function KeepAlphanumeric(s: string): (r: string)
    ensures |r| <= |s| && AllAlphanumeric(r) && NoMarkup(r) && NoControl(r)
    ensures AllAlphanumeric(s) ==> r == s
  {
    if |s| == 0 then []
    else if IsAlphanumeric(s[0]) then [s[0]] + KeepAlphanumeric(s[1..])
    else KeepAlphanumeric(s[1..])
  }

  /** Stripping works character by character: a control character is dropped,
      any other kept. */
  lemma StripControlChar(c: char)
    ensures StripControl([c]) == if IsControl(c) then [] else [c]
  {
    assert [c][1..] == [];
  }

  /** Stripping a concatenation strips each part, keeping their order. */
  lemma {:induction false} StripControlAppend(a: string, b: string)
    ensures StripControl(a + b) == StripControl(a) + StripControl(b)
  {
    if |a| > 0 {
      assert (a + b)[0] == a[0];
      assert (a + b)[1..] == a[1..] + b;
      StripControlAppend(a[1..], b);
    } else {
      assert a + b == b;
    }
  }

  /** The letter filter works character by character: a letter or digit is
      kept, anything else dropped. */
  lemma KeepAlphanumericChar(c: char)
    ensures KeepAlphanumeric([c]) == if IsAlphanumeric(c) then [c] else []
  {
    assert [c][1..] == [];
  }

  /** Filtering a concatenation filters each part, keeping their order. */
  lemma {:induction false} KeepAlphanumericAppend(a: string, b: string)
    ensures KeepAlphanumeric(a + b) == KeepAlphanumeric(a) + KeepAlphanumeric(b)
  {
    if |a| > 0 {
      assert (a + b)[0] == a[0];
      assert (a + b)[1..] == a[1..] + b;
      KeepAlphanumericAppend(a[1..], b);
    } else {
      assert a + b == b;
    }
  }

  /** `if (s.length > maxLength) s = s.substring(0, maxLength)`: substring
      reads a negative end as 0. */
  function Truncate(s: string, maxLength: int): (r: string)
    ensures |r| <= |s| && r == s[..|r|]
    ensures |r| == if |s| <= maxLength then |s| else if maxLength < 0 then 0 else maxLength
  {
    if |s| > maxLength then s[..if maxLength < 0 then 0 else maxLength] else s
  }

  // ---------------------------------------------------------------- sanitizeInput

  /** The text before truncation: escaped, free of control characters and,
      when asked, of everything but letters and digits. */
  function Cleaned(input: string, alphanumericOnly: bool): (r: string)
    ensures NoMarkup(r) && NoControl(r)
    ensures alphanumericOnly ==> AllAlphanumeric(r)
  {
    var escaped := EscapePasses(Trim(input));
    EscapePassesEscapeOnce(Trim(input));
    var stripped := StripControl(escaped);
    if alphanumericOnly then KeepAlphanumeric(stripped) else stripped
  }

  /** sanitizeInput with its options resolved: at most `maxLength` characters
      (none for a negative limit), a prefix of the cleaned text, without
      markup or control characters, and only letters and digits when asked. */
  function Sanitize(input: string, alphanumericOnly: bool, maxLength: int): (r: string)
    ensures |r| <= (if maxLength < 0 then 0 else maxLength)
    ensures |r| <= |Cleaned(input, alphanumericOnly)| && r == Cleaned(input, alphanumericOnly)[..|r|]
    ensures NoMarkup(r) && NoControl(r)
    ensures alphanumericOnly ==> AllAlphanumeric(r)
  {
    var cleaned := Cleaned(input, alphanumericOnly);
    var r := Truncate(cleaned, maxLength);
    assert forall i :: 0 <= i < |r| ==> r[i] == cleaned[i];
    r
  }

  datatype SanitizeOptions = SanitizeOptions(allowAlphanumericOnly: Option<bool>, maxLength: Option<int>)

  /** sanitizeInput: missing options default to no alphanumeric filter and a
      limit of 100. */
  function SanitizeInput(input: string, options: Option<SanitizeOptions>): (r: string)
    ensures |r| <= DEFAULT_MAX_LENGTH || (options.Some? && options.value.maxLength.Some?)
    ensures options.Some? && options.value.maxLength.Some? ==>
      |r| <= (if options.value.maxLength.value < 0 then 0 else options.value.maxLength.value)
    ensures NoMarkup(r) && NoControl(r)
    ensures options.Some? && options.value.allowAlphanumericOnly == Some(true) ==> AllAlphanumeric(r)
  {
    var alnum := if options.Some? && options.value.allowAlphanumericOnly.Some? then options.value.allowAlphanumericOnly.value else false;
    var maxLength := if options.Some? && options.value.maxLength.Some? then options.value.maxLength.value else DEFAULT_MAX_LENGTH;
    Sanitize(input, alnum, maxLength)
  }

  /** The value the form's change handler stores for a field. */
  function SanitizeField(value: string): (r: string)
    ensures |r| <= FIELD_MAX_LENGTH
    ensures |r| <= |Cleaned(value, false)| && r == Cleaned(value, false)[..|r|]
    ensures NoMarkup(r) && NoControl(r)
  {
    SanitizeInput(value, Some(SanitizeOptions(Some(false), Some(FIELD_MAX_LENGTH))))
  }

  // ---------------------------------------------------------------- properties

  /** A string that neither starts nor ends with white space is its own trim. */
  lemma TrimKeeps(s: string)
    requires |s| > 0 ==> !IsTrimSpace(s[0]) && !IsTrimSpace(s[|s| - 1])
    ensures Trim(s) == s
  {
    assert TrimStart(s) == s;
  }

  /** Text without markup or ampersands needs no escaping. */
  predicate Plain(s: string) { forall i :: 0 <= i < |s| ==> !Markup(s[i]) && s[i] != '&' }

  lemma {:induction false} EscapeEachPlain(s: string)
    requires Plain(s)
    ensures EscapeEach(s) == s
  {
    if |s| > 0 {
      EscapeEachPlain(s[1..]);
    }
  }

  /** Letters and digits pass every cleaning step untouched. */
  lemma CleanedKeepsAlphanumeric(input: string, alphanumericOnly: bool)
    requires AllAlphanumeric(input)
    ensures Cleaned(input, alphanumericOnly) == input
  {
    TrimKeeps(input);
    assert Plain(input) && NoControl(input);
    EscapePassesEscapeOnce(input);
    EscapeEachPlain(input);
  }

  /** An alphanumeric input within the limit comes back unchanged. */
  lemma SanitizeKeepsShortAlphanumeric(input: string, alphanumericOnly: bool, maxLength: int)
    requires AllAlphanumeric(input)
    requires |input| <= maxLength
    ensures Sanitize(input, alphanumericOnly, maxLength) == input
  {
    CleanedKeepsAlphanumeric(input, alphanumericOnly);
    SanitizeWithinLimit(input, alphanumericOnly, maxLength);
  }

  /** With the alphanumeric filter and a non-negative limit, sanitizing twice
      gives what sanitizing once gives. */
  lemma SanitizeAlphanumericIdempotent(input: string, maxLength: int)
    requires maxLength >= 0
    ensures var once := Sanitize(input, true, maxLength);
      Sanitize(once, true, maxLength) == once
  {
    var once := Sanitize(input, true, maxLength);
    SanitizeKeepsShortAlphanumeric(once, true, maxLength);
  }

  /** Within the limit nothing is cut off. */
  lemma SanitizeWithinLimit(input: string, alphanumericOnly: bool, maxLength: int)
    requires |Cleaned(input, alphanumericOnly)| <= maxLength
    ensures Sanitize(input, alphanumericOnly, maxLength) == Cleaned(input, alphanumericOnly)
  {
  }

  /** A leading ampersand becomes an entity even when plain text after it
      already spells one. */
  lemma EscapedAmpersand(t: string)
    requires Plain(t)
    ensures EscapePasses("&" + t) == "&amp;" + t
  {
    EscapePassesEscapeOnce("&" + t);
    assert ("&" + t)[1..] == t;
    EscapeEachPlain(t);
  }

  /** Cleaning without the filter, one step at a time. */
  lemma CleanedBySteps(input: string, trimmed: string, escaped: string, stripped: string)
    requires Trim(input) == trimmed && EscapePasses(trimmed) == escaped && StripControl(escaped) == stripped
    ensures Cleaned(input, false) == stripped
  {
  }

  lemma EscapedLessThan()
    ensures EscapePasses("<") == "&lt;"
  {
    EscapePassesEscapeOnce("<");
    assert EscapeEach("<") == "&lt;";
  }

  lemma LettersOfEntity()
    ensures KeepAlphanumeric(StripControl("&lt;")) == "lt"
  {
    assert StripControl("&lt;") == "&lt;";
    var e := "&lt;";
    assert e[1..] == "lt;" && e[1..][1..] == "t;" && e[1..][1..][1..] == ";";
    assert KeepAlphanumeric(";") == "";
  }

  /** An ampersand in front of plain text is not white space to trim, and the
      entity it becomes holds no control character. */
  lemma AmpersandHead(t: string)
    requires Plain(t) && NoControl(t)
    requires |t| > 0 ==> !IsTrimSpace(t[|t| - 1])
    ensures Trim("&" + t) == "&" + t
    ensures NoControl("&amp;" + t)
  {
    var s := "&" + t;
    assert s[0] == '&' && s[|s| - 1] == if |t| > 0 then t[|t| - 1] else '&';
    TrimKeeps(s);
    var e := "&amp;" + t;
    assert forall i :: 0 <= i < |e| ==> e[i] == if i < 5 then "&amp;"[i] else t[i - 5];
  }

  lemma AmpersandStripped(t: string)
    requires Plain(t) && NoControl(t)
    requires |t| > 0 ==> !IsTrimSpace(t[|t| - 1])
    ensures StripControl("&amp;" + t) == "&amp;" + t
  {
    AmpersandHead(t);
  }

  lemma CleanedAmpersand(t: string)
    requires Plain(t) && NoControl(t)
    requires |t| > 0 ==> !IsTrimSpace(t[|t| - 1])
    ensures Cleaned("&" + t, false) == "&amp;" + t
  {
    var s, e := "&" + t, "&amp;" + t;
    AmpersandStripped(t);
    AmpersandHead(t);
    EscapedAmpersand(t);
    CleanedBySteps(s, s, e, e);
  }

  /** Without the filter sanitizing is not idempotent: an ampersand followed
      by plain text is escaped again on every pass. */
  lemma SanitizeEscapesAgain(t: string)
    requires Plain(t) && NoControl(t) && |t| + 5 <= DEFAULT_MAX_LENGTH
    requires |t| > 0 ==> !IsTrimSpace(t[|t| - 1])
    ensures Sanitize("&" + t, false, DEFAULT_MAX_LENGTH) == "&amp;" + t
  {
    CleanedAmpersand(t);
    SanitizeWithinLimit("&" + t, false, DEFAULT_MAX_LENGTH);
  }

  /** Plain text stays plain, free of control characters and of trailing white
      space with the letters of the ampersand entity in front of it. */
  lemma EntityTail(t: string)
    requires Plain(t) && NoControl(t)
    requires |t| > 0 ==> !IsTrimSpace(t[|t| - 1])
    ensures var u := "amp;" + t;
      Plain(u) && NoControl(u) && !IsTrimSpace(u[|u| - 1]) &&
      "&" + u == "&amp;" + t && "&amp;" + u == "&amp;amp;" + t
  {
    var u := "amp;" + t;
    assert forall i :: 0 <= i < |u| ==> u[i] == if i < 4 then "amp;"[i] else t[i - 4];
  }

  /** Sanitizing "&" followed by plain text gives "&amp;" and that text, and
      sanitizing the result again gives "&amp;amp;" and that text. */
  lemma SanitizeNotIdempotent(t: string)
    requires Plain(t) && NoControl(t) && |t| + 9 <= DEFAULT_MAX_LENGTH
    requires |t| > 0 ==> !IsTrimSpace(t[|t| - 1])
    ensures Sanitize("&" + t, false, DEFAULT_MAX_LENGTH) == "&amp;" + t
    ensures Sanitize("&amp;" + t, false, DEFAULT_MAX_LENGTH) == "&amp;amp;" + t
  {
    SanitizeEscapesAgain(t);
    var u := "amp;" + t;
    EntityTail(t);
    SanitizeEscapesAgain(u);
  }

  lemma ControlThenSpaceTrimmed()
    ensures Trim("\U{1} a") == "\U{1} a"
  {
    TrimKeeps("\U{1} a");
  }

  lemma ControlThenSpaceEscaped()
    ensures EscapePasses("\U{1} a") == "\U{1} a"
  {
    EscapePassesEscapeOnce("\U{1} a");
    EscapeEachPlain("\U{1} a");
  }

  lemma ControlThenSpaceStripped()
    ensures StripControl("\U{1} a") == " a"
  {
    var s := "\U{1} a";
    assert s[1..] == " a";
    assert StripControl(" a") == " a";
  }

  /** Trimming runs before control characters are removed, so the result can
      start with a space. */
  lemma SanitizeNotTrimmed()
    ensures Sanitize("\U{1} a", false, DEFAULT_MAX_LENGTH) == " a"
  {
    ControlThenSpaceTrimmed();
    ControlThenSpaceEscaped();
    ControlThenSpaceStripped();
    CleanedBySteps("\U{1} a", "\U{1} a", "\U{1} a", " a");
    SanitizeWithinLimit("\U{1} a", false, DEFAULT_MAX_LENGTH);
  }

  /** Escaping runs before the filter, so a `<` leaves its entity's letters behind. */
  lemma SanitizeAlphanumericAfterEscape()
    ensures Sanitize("<", true, DEFAULT_MAX_LENGTH) == "lt"
  {
    TrimKeeps("<");
    EscapedLessThan();
    LettersOfEntity();
    SanitizeWithinLimit("<", true, DEFAULT_MAX_LENGTH);
  }
}
