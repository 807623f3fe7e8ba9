/** The string helpers of app.js: `truncate`, `escapeHtml`, `renderStars`, the
    `formatSum` branches that do not reach the locale formatter, and the `trim` the
    search handler applies to its input. */
module Text {
  import opened Wrappers
  import opened Json

  // ---------------------------------------------------------------- truncate

  /** The ellipsis `truncate` appends. */
  const Ellipsis: char := '…'

  /** How many characters `str.slice(0, end)` keeps of a string of length `len`:
      a negative `end` counts back from the end of the string. */
  function SliceEnd(len: nat, end: int): (k: nat)
    ensures k <= len
    ensures 0 <= end <= len ==> k == end
    ensures end < 0 ==> k == if len + end < 0 then 0 else len + end
  {
    if end < 0 then (if len + end < 0 then 0 else len + end)
    else if end > len then len
    else end
  }

  /** `truncate(str, n)`: a string of at most `n` characters comes back unchanged;
      a longer one is cut to a prefix and ends with the ellipsis. */
  function Truncate(s: string, n: int): (r: string)
    ensures |s| <= n ==> r == s
    ensures |s| > n ==> |r| >= 1 && r[|r| - 1] == Ellipsis && r[..|r| - 1] <= s
    ensures |s| > n >= 1 ==> r == s[..n - 1] + [Ellipsis] && |r| == n
  {
    if |s| > n then s[..SliceEnd(|s|, n - 1)] + [Ellipsis] else s
  }

  /** For every `n >= 1` the result has at most `n` characters, and truncating again
      changes nothing. */
  lemma TruncateIdempotent(s: string, n: int)
    requires n >= 1
    ensures |Truncate(s, n)| <= n
    ensures Truncate(Truncate(s, n), n) == Truncate(s, n)
  {
  }

  // -------------------------------------------------------------- escapeHtml

  /** The five characters `escapeHtml` replaces. */
  predicate IsMarkupChar(c: char) {
    c == '&' || c == '<' || c == '>' || c == '"' || c == '\''
  }

  /** The replacement `escapeHtml` uses for one character. */
  function Entity(c: char): (r: string)
    ensures !IsMarkupChar(c) ==> r == [c]
    ensures IsMarkupChar(c) ==> |r| >= 4 && r[0] == '&' && r[|r| - 1] == ';'
    ensures forall i :: 0 <= i < |r| ==> r[i] != '<' && r[i] != '>' && r[i] != '"' && r[i] != '\''
  {
    match c
    case '&' => "&amp;"
    case '<' => "&lt;"
    case '>' => "&gt;"
    case '"' => "&quot;"
    case '\'' => "&#39;"
    case _ => [c]
  }

  /** `escapeHtml(text)` on a string: every markup character is replaced by its entity,
      one character at a time, and every other character is kept. The result holds no
      `<`, `>`, `"` or `'`; it is as long as the input exactly when the input holds no
      markup character, and then it is the input itself. */
  function EscapeHtml(s: string): (r: string)
    ensures forall i :: 0 <= i < |r| ==> r[i] != '<' && r[i] != '>' && r[i] != '"' && r[i] != '\''
    ensures |r| >= |s|
    ensures |r| == |s| <==> forall i :: 0 <= i < |s| ==> !IsMarkupChar(s[i])
    ensures (forall i :: 0 <= i < |s| ==> !IsMarkupChar(s[i])) ==> r == s
  {
    if s == [] then []
    else
      var r := Entity(s[0]) + EscapeHtml(s[1..]);
      assert forall i :: 1 <= i < |s| ==> s[i] == s[1..][i - 1];
      r
  }

  /** Escaping distributes over concatenation. */
  lemma {:induction false} EscapeHtmlConcat(a: string, b: string)
    ensures EscapeHtml(a + b) == EscapeHtml(a) + EscapeHtml(b)
  {
    if a != [] {
      assert (a + b)[0] == a[0] && (a + b)[1..] == a[1..] + b;
      EscapeHtmlConcat(a[1..], b);
      assert EscapeHtml(a + b) == Entity(a[0]) + (EscapeHtml(a[1..]) + EscapeHtml(b));
    } else {
      assert a + b == b;
    }
  }

  /** `escapeHtml` leaves a string unchanged exactly when it holds none of the five
      markup characters. */
  lemma EscapeHtmlIdentity(s: string)
    ensures EscapeHtml(s) == s <==> forall i :: 0 <= i < |s| ==> !IsMarkupChar(s[i])
  {
  }

  /** The inverse of `escapeHtml`: decodes the five entities `escapeHtml` produces into
      their characters and keeps every other character. */
  function Unescape(t: string): (r: string)
    decreases |t|
  {
    if t == [] then []
    else if "&amp;" <= t then "&" + Unescape(t[5..])
    else if "&lt;" <= t then "<" + Unescape(t[4..])
    else if "&gt;" <= t then ">" + Unescape(t[4..])
    else if "&quot;" <= t then "\"" + Unescape(t[6..])
    else if "&#39;" <= t then "'" + Unescape(t[5..])
    else [t[0]] + Unescape(t[1..])
  }

  /** Reading back the replacement of one character gives that character. */
  lemma UnescapeEntity(c: char, rest: string)
    ensures Unescape(Entity(c) + rest) == [c] + Unescape(rest)
  {
    var t := Entity(c) + rest;
    if c == '&' {
      assert "&amp;" <= t && t[5..] == rest;
    } else if c == '<' {
      assert t[1] == 'l';
      assert "&lt;" <= t && t[4..] == rest;
    } else if c == '>' {
      assert t[1] == 'g';
      assert "&gt;" <= t && t[4..] == rest;
    } else if c == '"' {
      assert t[1] == 'q';
      assert "&quot;" <= t && t[6..] == rest;
    } else if c == '\'' {
      assert t[1] == '#';
      assert "&#39;" <= t && t[5..] == rest;
    } else {
      assert t[0] == c && t[1..] == rest;
    }
  }

  /** The markup `escapeHtml` produces reads back as the original text, so escaping
      loses nothing. */
  lemma {:induction false} UnescapeEscapeHtml(s: string)
    ensures Unescape(EscapeHtml(s)) == s
  {
    if s != [] {
      UnescapeEntity(s[0], EscapeHtml(s[1..]));
      UnescapeEscapeHtml(s[1..]);
    }
  }

  /** The longest title a card shows, in characters. */
  const TitleLimit: int := 70

  /** The markup of a card's heading: the title truncated to 70 characters and escaped. */
  function TitleMarkup(title: string): string {
    EscapeHtml(Truncate(title, TitleLimit))
  }

  /** A card heading holds no markup character that could open a tag or an attribute,
      and reads back as the truncated title: at most 70 characters of the title's text. */
  lemma TitleMarkupReadsBack(title: string)
    ensures forall i :: 0 <= i < |TitleMarkup(title)| ==> TitleMarkup(title)[i] != '<' && TitleMarkup(title)[i] != '>'
    ensures Unescape(TitleMarkup(title)) == Truncate(title, TitleLimit)
    ensures |Unescape(TitleMarkup(title))| <= TitleLimit
  {
    UnescapeEscapeHtml(Truncate(title, TitleLimit));
  }

  // ------------------------------------------------------------- renderStars

  const FilledStar: char := '★'
  const EmptyStar: char := '☆'
  const StarSlots: int := 5

  /** `c.repeat(k)`. */
  function Repeat(c: char, k: nat): (r: string)
    ensures |r| == k
    ensures forall i :: 0 <= i < k ==> r[i] == c
  {
    if k == 0 then [] else [c] + Repeat(c, k - 1)
  }

  /** `Math.round(Number(value) || 0)`, given `Number(value)`: NaN and 0 both become 0. */
  function StarCount(value: JsNumber): (r: int)
    ensures value.NaN? ==> r == 0
    ensures value.Finite? ==> r as real - 0.5 <= value.x < r as real + 0.5
  {
    match value
    case NaN => 0
    case Finite(x) => Round(x)
  }

  /** `renderStars(value)`: as many filled stars as the rounded rating, then empty stars
      up to five. */
  function RenderStars(value: JsNumber): (r: string)
    requires 0 <= StarCount(value) <= StarSlots
    ensures |r| == StarSlots
    ensures forall i :: 0 <= i < StarSlots ==> r[i] == if i < StarCount(value) then FilledStar else EmptyStar
  {
    Repeat(FilledStar, StarCount(value)) + Repeat(EmptyStar, StarSlots - StarCount(value))
  }

  /** A rating that is not a number, or is zero, shows five empty stars; a rating of
      exactly 5 shows five filled stars. */
  lemma RenderStarsExtremes()
    ensures RenderStars(NaN) == Repeat(EmptyStar, 5)
    ensures RenderStars(Finite(0.0)) == Repeat(EmptyStar, 5)
    ensures RenderStars(Finite(5.0)) == Repeat(FilledStar, 5)
  {
  }

  // --------------------------------------------------------------- formatSum

  /** What `formatSum` produces: the empty string, the argument itself, or the rounded
      amount handed to the `ru-RU` number formatter and followed by " сум". */
  datatype SumText = Blank | PassThrough(value: Json) | Grouped(amount: int)

  /** `formatSum(value)`, given `Number(value)`; `None` is `undefined`. */
  function FormatSum(value: Option<Json>, asNumber: JsNumber): (r: SumText)
    ensures r.Blank? <==> value.None? || value == Some(Null)
    ensures r.PassThrough? ==> value == Some(r.value) && asNumber.NaN?
    ensures r.Grouped? ==> asNumber.Finite? && r.amount as real - 0.5 <= asNumber.x < r.amount as real + 0.5
  {
    if value.None? || value.value.Null? then Blank
    else match asNumber
      case NaN => PassThrough(value.value)
      case Finite(x) => Grouped(Round(x))
  }

  // -------------------------------------------------------------------- trim

  /** The white space and line terminators `String.prototype.trim` removes. */
  predicate IsJsSpace(c: char) {
    c == '\t' || c == '\n' || c == '\U{000B}' || c == '\U{000C}' || c == '\r' || c == ' '
    || c == '\U{00A0}' || c == '\U{1680}' || ('\U{2000}' <= c <= '\U{200A}')
    || c == '\U{2028}' || c == '\U{2029}' || c == '\U{202F}' || c == '\U{205F}'
    || c == '\U{3000}' || c == '\U{FEFF}'
  }

  /** The number of white-space characters `s` starts with. */
  function LeadingSpaces(s: string): (k: nat)
    ensures k <= |s|
    ensures forall i :: 0 <= i < k ==> IsJsSpace(s[i])
    ensures k < |s| ==> !IsJsSpace(s[k])
  {
    if s == [] || !IsJsSpace(s[0]) then 0
    else
      var k := 1 + LeadingSpaces(s[1..]);
      assert forall i :: 1 <= i < |s| ==> s[i] == s[1..][i - 1];
      k
  }

  /** The number of white-space characters `s` ends with. */
  function TrailingSpaces(s: string): (k: nat)
    ensures k <= |s|
    ensures forall i :: |s| - k <= i < |s| ==> IsJsSpace(s[i])
    ensures k < |s| ==> !IsJsSpace(s[|s| - 1 - k])
  {
    if s == [] || !IsJsSpace(s[|s| - 1]) then 0
    else
      var k := 1 + TrailingSpaces(s[..|s| - 1]);
      assert forall i :: 0 <= i < |s| - 1 ==> s[i] == s[..|s| - 1][i];
      k
  }

  /** `s.trim()`: the contiguous middle of `s` that neither starts nor ends with white
      space; everything cut off is white space. */
  function Trim(s: string): (r: string)
    ensures LeadingSpaces(s) + |r| <= |s| && r == s[LeadingSpaces(s)..LeadingSpaces(s) + |r|]
    ensures r == [] || (!IsJsSpace(r[0]) && !IsJsSpace(r[|r| - 1]))
    ensures forall i :: 0 <= i < |s| && !(LeadingSpaces(s) <= i < LeadingSpaces(s) + |r|) ==> IsJsSpace(s[i])
  {
    var rest := s[LeadingSpaces(s)..];
    rest[..|rest| - TrailingSpaces(rest)]
  }

  /** Trimming twice is trimming once. */
  lemma TrimIdempotent(s: string)
    ensures Trim(Trim(s)) == Trim(s)
  {
  }

  // -------------------------------------------------------- number to string

  /** The digit character for `d`. */
  function DigitChar(d: nat): (c: char)
    requires d < 10
    ensures '0' <= c <= '9' && c as int - '0' as int == d
  {
    ('0' as int + d) as char
  }

  /** The value of a digit character; 0 for anything else. */
  function DigitValue(c: char): nat {
    if '0' <= c <= '9' then c as int - '0' as int else 0
  }

  /** The decimal digits of `n`, most significant first, without leading zeros. */
  function NatDigits(n: nat): (r: string)
    ensures |r| >= 1
    ensures forall i :: 0 <= i < |r| ==> '0' <= r[i] <= '9'
    ensures r[0] == '0' ==> n == 0
    decreases n
  {
    if n < 10 then [DigitChar(n)] else NatDigits(n / 10) + [DigitChar(n % 10)]
  }

  /** The value of a string of decimal digits. */
  function ParseDigits(s: string): nat {
    if s == [] then 0 else ParseDigits(s[..|s| - 1]) * 10 + DigitValue(s[|s| - 1])
  }

  /** `String(n)` for an integer-valued number below 10^21 in magnitude (larger ones
      are written with an exponent). A minus sign for negative numbers, then the
      digits without leading zeros. */
  function Decimal(n: int): (r: string)
    ensures |r| >= 1 && (r[0] == '-' <==> n < 0)
    ensures forall i :: (if n < 0 then 1 else 0) <= i < |r| ==> '0' <= r[i] <= '9'
    ensures var d := if n < 0 then 1 else 0; |r| > d && (r[d] == '0' ==> r == "0")
  {
    if n < 0 then "-" + NatDigits(-n) else NatDigits(n)
  }

  /** Reads back what `Decimal` writes. */
  function ParseDecimal(s: string): int {
    if s != [] && s[0] == '-' then -(ParseDigits(s[1..]) as int) else ParseDigits(s)
  }

  /** Reading the digits of `n` gives `n`. */
  lemma {:induction false} ParseNatDigits(n: nat)
    ensures ParseDigits(NatDigits(n)) == n
    decreases n
  {
    var s := NatDigits(n);
    if n < 10 {
      assert s[..|s| - 1] == [];
    } else {
      assert s[..|s| - 1] == NatDigits(n / 10);
      ParseNatDigits(n / 10);
    }
  }

  /** `Decimal` loses nothing: the string reads back as the integer it was made from. */
  lemma DecimalRoundTrip(n: int)
    ensures ParseDecimal(Decimal(n)) == n
  {
    if n < 0 {
      assert Decimal(n)[1..] == NatDigits(-n);
      ParseNatDigits(-n);
    } else {
      ParseNatDigits(n);
    }
  }
}
