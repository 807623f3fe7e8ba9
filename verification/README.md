# Catalog widget core, in Dafny

The catalog widget (`app.js`) fetches a paginated, searchable list of books from a remote
API and shows them as cards. Around its DOM and network glue sits a small deterministic
core, which this project models and proves properties of:

- the string helpers `truncate`, `escapeHtml`, `renderStars` and the two `formatSum`
  branches that do not reach the locale formatter (module `Text`, `text.dfy`);
- `findArrayInResponse`, which finds the list of items in a response of unknown shape
  (module `ResponseShape`, `response_shape.dfy`), as a specification function
  `FindArray` and a method with the source's three loops proved equal to it;
- the `||` fallbacks that turn a raw item record into a card's fields (module `Items`,
  `items.dfy`);
- the global query state and the handlers of the size and order selects, the prev and
  next buttons and the debounced search box, plus the parameter list a fetch sends
  (module `QueryState`, `query_state.dfy`; the state is the class `QueryState.State`).

Decoded JSON is the datatype `Json.Json` (`json.dfy`). An object is a sequence of
(key, value) members in the order `for…in` enumerates them. A number is the exact
value of its double. JavaScript's truthiness, `a || b`, property reads and
`Math.round` are spelt out there. For `Number(…)` only the result type is defined
(`JsNumber`, NaN or a finite value); the conversion itself is a parameter of
`StarCount`, `RenderStars` and `FormatSum`.

## Model

| member | source | states |
|---|---|---|
| `Json.Truthy` | app.js:86-91 | A value is truthy iff it is present and is not `null`, `false`, `0` or `""`; empty arrays and objects are truthy |
| `Json.Or` | app.js:86-91 | JavaScript's `or` operator gives one of its operands, is truthy iff either operand is, and is the left one when that is truthy and the right one otherwise |
| `Json.Lookup` | app.js:86-91 | A property read is undefined iff no member has the key, and otherwise is the value of a member with that key |
| `Json.Round` | app.js:124 | `Math.round`: the result is the nearest integer, and a half rounds up (`r - 0.5 <= x < r + 0.5`) |
| `Text.SliceEnd` | app.js:127 | The count `slice(0, end)` keeps never exceeds the length, equals `end` when `end` lies within the string, and for a negative `end` is the length plus `end`, but not below 0 |
| `Text.Truncate` | app.js:127 | A string of at most `n` characters comes back unchanged. A longer one, for `n >= 1`, becomes its first `n-1` characters plus `…`, exactly `n` long. For any `n` a cut string ends in `…` after a prefix of the input |
| `Text.TruncateIdempotent` | app.js:127 | For `n >= 1` the result has at most `n` characters, and truncating it again changes nothing |
| `Text.Entity` | app.js:129 | A non-markup character is kept as it is; a markup character becomes an entity starting with `&` and ending with `;`, at least 4 long, with no `<`, `>`, `"` or `'` |
| `Text.EscapeHtml` | app.js:128-130 | The output holds no `<`, `>`, `"` or `'`. It is never shorter than the input. It is exactly as long as the input iff the input holds none of the five markup characters, and then it equals the input |
| `Text.EscapeHtmlConcat` | app.js:128-130 | Escaping distributes over concatenation, because each character is replaced on its own |
| `Text.EscapeHtmlIdentity` | app.js:128-130 | A string is returned unchanged iff it contains none of `& < > " '` |
| `Text.UnescapeEscapeHtml` | app.js:128-130 | Decoding the five entities turns the escaped text back into the original text, so escaping loses nothing |
| `Text.TitleMarkupReadsBack` | app.js:99 | A card heading (the title truncated to 70 and escaped) holds no `<` or `>`. It decodes to the truncated title, at most 70 characters |
| `Text.StarCount` | app.js:124 | NaN gives 0 stars; a finite rating gives its nearest integer, halves rounded up |
| `Text.Repeat` | app.js:125 | `c.repeat(k)` is exactly `k` characters, each of them `c` |
| `Text.RenderStars` | app.js:123-126 | For a rounded rating `v` in 0..5 the result is 5 glyphs: positions below `v` are `★`, the rest `☆` |
| `Text.RenderStarsExtremes` | app.js:123-126 | A NaN or zero rating gives five `☆`. A rating of 5 gives five `★` |
| `Text.FormatSum` | app.js:9-14 | `null`/`undefined` gives the empty text. A non-numeric value is passed through unchanged. Otherwise the amount handed to the formatter is the nearest integer |
| `Text.Trim` | app.js:147 | The result is a contiguous slice of the input that neither starts nor ends with JavaScript white space. Everything cut off is white space |
| `Text.TrimIdempotent` | app.js:147 | Trimming a trimmed string changes nothing |
| `Text.Decimal` | app.js:48-52 | The text of an integer is non-empty, starts with `-` iff the integer is negative, and is otherwise decimal digits with no leading zero (only 0 itself is written `0`) |
| `Text.DecimalRoundTrip` | app.js:48-52 | The decimal text of an integer parameter reads back as that integer |
| `ResponseShape.FirstArrayMember` | app.js:18-20 | The first array-valued member, in key order: it is an array and no earlier member is |
| `ResponseShape.FirstArrayHolder` | app.js:21-27 | The first object-valued member that holds an array: it holds one and no earlier member does |
| `ResponseShape.FindArrayInResponse` | app.js:16-29 | The three early-return loops compute exactly `FindArray`: the input if it is an array, else the first top-level array, else the first array one level into object members, else `null` |
| `ResponseShape.TopLevelArrayWins` | app.js:17-20 | When the first array-valued member is at position `i`, that array is returned, whatever is nested deeper |
| `ResponseShape.NestedArrayInKeyOrder` | app.js:21-28 | With no top-level array, the returned array is the first in key order inside the first object member that holds one |
| `ResponseShape.NotFoundIff` | app.js:16-29 | `null` is returned iff the input is not an array, and it has no array at the top level or one level down |
| `ResponseShape.FoundWithinTwoLevels` | app.js:16-29 | Whatever is returned is the input, a top-level value, or a value one level down. Deeper arrays are never returned |
| `ResponseShape.ExampleShapes` | app.js:16-29 | A bare array is returned as is. `{data:{items:[…]}}` gives the nested array. `{foo:1}` gives `null`. An array three levels down is not found |
| `Items.Prop` | app.js:86-91 | A property read on an item is defined iff the item is an object with a member of that key, and then is that member's value; on any other item it is undefined |
| `Items.FirstImage` | app.js:89 | A falsy `images` gives a falsy result. An array gives its first element, or undefined when empty. A non-empty string gives its first character. A truthy number or boolean gives undefined. An object gives its member `"0"` |
| `Items.OrChain3` | app.js:86 | The chain of three `or`-operands and a default gives the first truthy of the three, else the default |
| `Items.CardFields` | app.js:86-91 | A `null` item throws (None). Otherwise each field is the first truthy property of its chain, in the chain's order, else its default: `'Без названия'`, `null`, `null`, `''`, 5, 0. `images[0]` is read only when `images` is truthy |
| `Items.CardFieldsShape` | app.js:86-105 | Title and rating are always truthy. The prices are `null` or truthy. The price cell shows `—` iff neither `price` nor `currentPrice` is truthy |
| `Items.FalsyRatingShowsFiveStars` | app.js:90-101 | A missing, `null`, `0`, `false` or `""` rating becomes 5 and shows five `★` |
| `Items.TitlePreferred` | app.js:86 | A non-empty string `title` is shown, whatever `name` and `bookTitle` hold |
| `QueryState.RequestParams` | app.js:48-53 | The parameters are `size`, `page` and `order` in that order. A fourth, `q`, carrying the query, follows iff the query is non-empty; otherwise there are exactly three. `q` is present iff the query is non-empty |
| `QueryState.RequestPageReadsBack` | app.js:48-53 | The `page` parameter's text reads back as the state's page |
| `QueryState.State.constructor` | app.js:2-7 | The initial state is page 1, size 24, order `DESC`, empty query, and no search is pending |
| `QueryState.State.ChangeSize` | app.js:132-134 | Sets the size and page 1, and nothing else. `page >= 1` holds afterwards |
| `QueryState.State.ChangeOrder` | app.js:135-137 | Sets the order and page 1, and nothing else. `page >= 1` holds afterwards |
| `QueryState.State.Prev` | app.js:138-140 | Fetches iff the page was above 1, and then lowers it by one. On page 1 nothing changes. `page >= 1` is kept |
| `QueryState.State.Next` | app.js:141-143 | Raises the page by one with no upper bound, and changes nothing else (see Left out for the 2^53 limit) |
| `QueryState.State.SearchInput` | app.js:146-148 | Sets the query to the trimmed input at once, with no page change and no fetch. A search is now pending |
| `QueryState.State.SearchTimerFires` | app.js:149 | When the pending timer fires it sets page 1 and changes nothing else |
| `QueryState.SearchBurst` | app.js:145-150 | Any burst of keystrokes followed by the timer ends on page 1, with the last keystroke's trimmed text as the query |

## Left out

- DOM work: building and mounting cards, the loader, the status line, `alert`, and the
  favourite-heart toggle (app.js:31-46, 62-81, 93-119). It is display plumbing.
- `fetchAndRender`'s network request, `await`, `res.ok`/`res.json` and its
  try/catch/finally flow (app.js:43-76). They are I/O and asynchronous. So is the race
  between overlapping fetches. The handlers report the fetch they trigger but do not
  perform it: `Prev` returns whether it fetches; `ChangeSize`, `ChangeOrder` and
  `Next` always fetch; `SearchInput` fetches nothing and only schedules a fetch,
  which `SearchTimerFires` performs.
- The debounce timing (`setTimeout`/`clearTimeout`, 400 ms). It is reduced to a flag
  saying whether a timer is pending; when a timer fires is up to the caller.
- `Text.FormatSum`: the thousands grouping by `Intl.NumberFormat('ru-RU')` and the
  appended " сум" are a foreign locale library. The model returns the rounded amount
  that goes to the formatter. `Number(value)` is taken as a parameter.
- `Text.RenderStars`: `Number(value)` is taken as a parameter. Ratings that round
  outside 0..5 are excluded by its precondition. The source does not clamp them, and
  `String.prototype.repeat` throws on a negative count.
- `Text.Decimal`: `String(n)` is modelled for integers only. `size` is an integer.
  The source's `Number(e.target.value)` could give NaN, but the select's options
  (in the page's markup) are not part of this model. `URLSearchParams` percent-encoding
  is not modelled.
- `Text.EscapeHtml` and `Text.Truncate` take strings. `String(text)` on a title that is
  a number, array or object is not modelled, and neither is `.length` on such a title.
- Strings are sequences of Unicode scalar values. JavaScript counts UTF-16 code
  units, so for characters outside the Basic Multilingual Plane the lengths differ.
- `Json.Json` has no duplicate keys in an object (`JSON.parse` keeps one), and no
  NaN. Numbers are unbounded exact values, not doubles. This leaves out three
  behaviours of large numbers, none reachable in normal use:
- `Json.JsNumber`: infinities are not modelled. `JSON.parse('1e400')` and
  `Number("Infinity")` give `Infinity`, for which `formatSum` returns "∞ сум"
  (app.js:12-13) and `renderStars` throws.
- `Text.Decimal`: `String(n)` writes numbers of magnitude 10^21 or more with an
  exponent (`"1e+21"`); the model writes all their digits.
- `QueryState.State.Next`: in JavaScript `state.page++` stops changing the page at
  2^53; the model's page keeps growing.
- Three behaviours of app.js worth knowing, all modelled as written: the detector
  returns any array, not only arrays of item records; the page size is never checked
  to be positive; a zero rating shows five filled stars, because `rating || 5`
  replaces it before `renderStars` sees it.
