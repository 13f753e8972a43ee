# Netrum mining monitor — verified model of the request handler

The repository is a single fetch handler (`index.js`). A GET request gets an
empty form. A POST request carries a wallet address in the form field
`address`. The handler checks the address, asks the mining service's live-log
endpoint for the claimable amount and the speed, and reads the claim
endpoint's `minedTokens` twice, 30 seconds apart. The node counts as mining
when the second amount is strictly larger. The result is rendered as HTML.

This project models the decision logic around that I/O:

- `Address`: the guard `!address || !/^0x[a-fA-F0-9]{40}$/.test(address)`. It is written as a matcher: the literal `0x`, then the longest run of hex digits (`HexRun`), which must be 40 long and reach the end of the input.
- `Decimal`: `BigInt(text)` on a claim amount, as parsing a non-empty string of decimal digits, and the decimal spelling of a non-negative integer (`${n}`).
- `Page`: how a call binds `renderPage`'s three parameters (`RenderCall`), and the parts of the page that depend on them (`RenderPage`). Those parts are the form field value and the optional status block, which holds an optional live-status line and the word `active` or `stopped`.
- `Handler`: `fetch(request)` with every awaited upstream step given as an input. Each step either throws with a message (`Raised`) or returns its reply (`Returned`). `Monitor` is the `try` block. `Handle` returns the three values that reach `renderPage`. `Serve` is the rendered page.
- `FormatTime`: the unused `formatTime`, for whole non-negative seconds.

Two behaviours of the code are modelled as written:

- The invalid-address call and the exception call pass four arguments to `renderPage`, which takes three (index.js:10, 64, 77). The third argument `''` becomes the address. The submitted address, passed fourth, is dropped, so the form field is empty on both paths.
- The activity word tests whether the flag string is non-empty (index.js:124). A computed `"false"` therefore renders `active`. `stopped` appears only on the invalid-address and exception paths.

## Model

| member | source | states |
|---|---|---|
| Address.HexRun | index.js:9 | the run length is at most the input length, every character inside the run is in `[a-fA-F0-9]`, and the character that ends the run is not |
| Address.MatchesPattern | index.js:9 | the pattern matches iff the text has exactly 42 characters, starts with `0x` (lower-case x only), and characters 2..41 are all hex digits |
| Address.Accepted | index.js:9 | the guard passes iff the address is present and matches the pattern; the separate `!address` test rejects nothing beyond null, since an empty string fails the pattern |
| Address.LengthBoundary | index.js:9 | a matching address with one more character, or one fewer, no longer matches |
| Address.MissingRejected | index.js:9 | a missing or empty address is rejected |
| Decimal.DecimalText | index.js:136 | the decimal spelling of a non-negative integer is non-empty, all digits, and has no leading zero |
| Decimal.ParseBigInt | index.js:43 | `BigInt(s)` succeeds iff `s` is a non-empty string of decimal digits; its value is then non-negative; otherwise it throws with "Cannot convert s to a BigInt" |
| Decimal.ParseBigIntOfText | index.js:53 | parsing the decimal spelling of n gives back n |
| Decimal.TextOfDigitsValue | index.js:53 | a digit string without leading zeros is the decimal spelling of its parsed value |
| Decimal.LeadingZeroIgnored | index.js:43 | a leading zero does not change the parsed value; with the two round trips this fixes the value of every digit string |
| Page.RenderCall | index.js:77 | a call binds `renderPage`'s three parameters to its first three arguments, by position |
| Page.SurplusArgumentIgnored | index.js:77 | a fourth argument to `renderPage` has no effect on the page, which is the fate of the address at index.js:10 and index.js:64 |
| Page.RenderPage | index.js:116-124 | the form value is the bound address; the status block is shown iff the live status or the flag is non-empty; inside it the live line is shown iff the live status is non-empty; the activity is active iff the flag is non-empty |
| Handler.LiveStatus | index.js:25-34 | an unsuccessful reply, or one without `liveInfo`, gives "❌ API Error: " followed by `error`, or by `message` when `error` is missing or empty; otherwise the line is "Avail to claim: … NPT" and "Speed: …/s" joined by " \| "; the line is never empty |
| Handler.ClaimAmount | index.js:43 | a missing or empty `minedTokens` counts as 0; any other amount is what `BigInt` reads from it, so it parses iff it is all digits; a failed parse throws the BigInt syntax error for that text |
| Handler.BoolText | index.js:56 | `isMining.toString()` is "true" iff the comparison holds, "false" iff it does not, and never empty |
| Handler.Monitor | index.js:15-61 | the try block succeeds iff every step returns and both amounts parse; it then passes a non-empty live status, a non-empty flag and the address |
| Handler.MonitorOutcome | index.js:15-61 | the first step that throws decides the error message, and later steps are not consulted; on success the arguments are the live status, the flag "true" iff after > before, and the address |
| Handler.MiningFlagOfClaims | index.js:43-56 | for claim replies carrying the amounts b and a, the try block succeeds and the flag is "true" iff a > b, and "false" iff a <= b |
| Handler.MiningFlagFromNothing | index.js:43-56 | when the first claim reply has no amount, the flag is "true" iff the second amount is positive |
| Handler.Handle | index.js:5-73 | the live status is non-empty iff the method is POST; the flag and the address are non-empty iff the POST succeeds, and the address is then the submitted one |
| Handler.HandleSuccess | index.js:55-59 | when every step succeeds, `renderPage` receives the live status, the flag "true" iff the after amount is strictly larger than the before amount, and the submitted address |
| Handler.Serve | index.js:5-73 | the status block is shown iff the method is POST; on a POST the activity is stopped iff the address is rejected or some step fails; the form field is non-empty iff the POST succeeds, and then holds the submitted address |
| Handler.NonPostPage | index.js:70-73 | a request whose method is not POST renders an empty form and no status block |
| Handler.InvalidAddressPage | index.js:9-12 | a rejected address renders "❌ Invalid EVM address" with an empty flag, so the activity is stopped, and the form field is empty |
| Handler.ErrorPage | index.js:63-66 | an exception after validation renders "❌ Error: " plus its message with an empty flag, so the activity is stopped, and the form field is empty |
| Handler.SuccessPage | index.js:55-61 | when every step succeeds the form echoes the address, the live-status line is shown, and the activity is active whatever the flag says |
| FormatTime.Decompose | index.js:132-135 | minutes and seconds are below 60, hours are seconds div 3600, and hours·3600 + minutes·60 + seconds equals the input |
| FormatTime.DecomposeUnique | index.js:132-135 | the decomposition is the only one whose minutes and seconds are below 60 |
| FormatTime.FormatTimeInjective | index.js:132-137 | the text "<h>h <m>m <s>s" determines the number of seconds: different inputs give different texts |

## Left out

- The outbound calls to the live-log and claim endpoints and their `.json()` decoding (index.js:17-23, 37-42, 47-52) are network I/O. Their outcomes are inputs of type `Step`. A `Raised` step covers any exception from the call, from decoding, or from reading `liveData.success`.
- The 30-second `setTimeout` wait (index.js:45) is timing only. The model keeps only the order of the steps.
- `formatTokens` (index.js:139-141) divides by 1e18 in floating point. It is the opaque parameter `fmt`.
- `request.formData()`, the unused `searchParams`, `Response` construction and headers (index.js:3, 6-7, 10-12) are runtime plumbing. The request is reduced to its method and the optional `address` field. A `formData()` failure outside the `try` block is not modelled.
- The static HTML and CSS of the page (index.js:78-120, 126-129) are fixed text. Only the variable parts are modelled. The page does not HTML-escape the live-status line, whose text can come from upstream (`liveData.error` or `message` at index.js:27, and `err.message` at index.js:64, which includes an unparseable `minedTokens` through the BigInt error text). The model does not model escaping either.
- Decimal.ParseBigInt: narrower than JavaScript's `BigInt` on strings. Surrounding whitespace, `0x`/`0o`/`0b` prefixes and signs are parsed by `BigInt` but are errors here. `BigInt("")` is `0n` in JavaScript but an error here; the handler never passes an empty string, because of `|| '0'`. JSON numbers in `minedTokens` are not modelled; amounts are strings or missing.
- Decimal.BigIntSyntaxMessage: the SyntaxError text is the one the V8 engine uses. Other engines word it differently.
- Handler.LiveStatus: `success` is modelled by its truthiness. `error` and `message` are strings or missing. A missing `message` prints as `undefined`. Other JSON values, such as `null` or numbers, are not modelled.
- Handler.InvalidAddressPage: when the address field is missing, its `null` is written as an empty string in the dropped fourth argument. It has no effect either way.
- FormatTime.Decompose: only whole, non-negative seconds below 2^53. Fractional or negative seconds go through floating-point `Math.floor` and `%`. From 2^53 seconds upward the floating-point division `seconds / 3600` can round up to the next integer, so `Math.floor` gives one hour too many and h·3600 + m·60 + s no longer equals the input. Number-to-string then also prints rounded digits padded with zeros, and from 1e21 upward it uses exponent notation, while `Decimal.DecimalText` spells the exact integer.
