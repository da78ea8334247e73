# CardScanner OCR field extractor, modelled in Dafny

This project models the field extractor of the CardScanner Android app
(`CameraUtil.kt`). The extractor takes the text that ML Kit recognised in one
camera frame and scans its lines. It collects expiry-date candidates (five
characters containing `/`). It keeps the last line that reads as a card number
under `creditCardPattern`, with its spaces removed. It then picks one expiry
date: the first candidate with the largest two-digit year suffix, or none when
that largest suffix is 0. The result callback fires only when both a card
number and an expiry date were found.

Files and modules:

- `wrappers.dfy` (`Wrappers`): `Option`. It stands for Kotlin's nullable
  values and for a callback that may not fire.
- `string_ext.dfy` (`StringExt`): the project's helpers `validateString`,
  `isValidString` and `parseInt`, plus the Kotlin library operations
  `replace(" ", "")` (`StripSpaces`) and `split(" ")` (`Split`, with its
  inverse `Join`).
- `card_number_pattern.dfy` (`CardNumberPattern`): `creditCardPattern` in two
  forms. The first is a regular-expression term (`CreditCardRegex`) whose
  meaning, whole-string matching, is given by `Matches`. The second is a
  predicate on digit strings with one disjunct per alternative
  (`InCardPattern`). A lemma proves the two equal, and `IsCardNumberValid`
  is built on them.
- `expiry_date.dfy` (`ExpiryDate`): `maxOfOrNull`, `find` and `getExpiryDate`.
- `vision_text.dfy` (`VisionText`): `setValuesFromVisionText`.
  - `Dates`, `CardNumber` and `Extract` are functions that specify the scan.
  - `ScanLines` is the imperative `forEach` loop. It appends to `datesList`
    and overwrites `cardNumber`, and is proved equal to those functions.
  - `SetValuesFromVisionText` is the null check plus the callback gate.

Interfaces:

- The recognised `Text?` is `Option<seq<seq<string>>>`: blocks of line
  strings, with `None` for a null receiver.
- The callback is the returned `Option<CardDetails>`. `Some(d)` means the
  callback is invoked once, with the four fields of `d`; `None` means it is
  not invoked.
- `getCardType` lives in a file that is not part of this model. It is a
  function parameter `string -> CardType`, and its mapping is left unspecified.

Where the code departs from what its names or the card issuers' ranges suggest, the model follows the code:

- The Mastercard alternative of the pattern is `[25][1-7]` followed by 14
  digits. This admits any 16-digit number starting 21–27 or 51–57, not only
  the issuer range 2221–2720 (`MastercardBranchIsWide`).
- Lines are not trimmed. Only `validateString` is applied, and it leaves a
  non-null string unchanged.
- `expiryDatePattern` is declared but never used. A candidate is any
  five-character run containing `/`; it is not checked against `DD/DD`.
- Scanning the lines and gating the callback happen in one Kotlin function.
  The model splits them into two methods, `ScanLines` and
  `SetValuesFromVisionText`, so that each proof stays small.

## Model

| member | source | states |
|---|---|---|
| `StringExt.ValidateString` | CardScanner/src/main/java/com/example/cardscanner/util/CameraUtil.kt:34 | a null string becomes empty, any other string is kept as it is (no trimming) |
| `StringExt.IsValidString` | CardScanner/src/main/java/com/example/cardscanner/util/CameraUtil.kt:50 | a string is valid when it is non-empty |
| `StringExt.ParseInt` | CardScanner/src/main/java/com/example/cardscanner/util/CameraUtil.kt:109 | never negative; two ASCII digits parse to their decimal value (at most 99) |
| `StringExt.StripSpaces` | CardScanner/src/main/java/com/example/cardscanner/util/CameraUtil.kt:104 | the result has no space and is no longer than the input |
| `StringExt.StripSpacesKeepsOthers` | CardScanner/src/main/java/com/example/cardscanner/util/CameraUtil.kt:104 | every character other than a space keeps its number of occurrences |
| `StringExt.StripSpacesAppend` | CardScanner/src/main/java/com/example/cardscanner/util/CameraUtil.kt:104 | removing spaces distributes over concatenation, so order is kept |
| `StringExt.StripSpacesAroundSpace` | CardScanner/src/main/java/com/example/cardscanner/util/CameraUtil.kt:46 | the space between two digit groups vanishes and the groups are glued |
| `StringExt.StripSpacesFixedPoint` | CardScanner/src/main/java/com/example/cardscanner/util/CameraUtil.kt:104 | stripping leaves a string unchanged exactly when it has no space |
| `StringExt.Split` | CardScanner/src/main/java/com/example/cardscanner/util/CameraUtil.kt:40 | at least one token, and no token contains a space |
| `StringExt.SplitCount` | CardScanner/src/main/java/com/example/cardscanner/util/CameraUtil.kt:40 | a line with n spaces gives n + 1 tokens, empty tokens included |
| `StringExt.SplitJoin` | CardScanner/src/main/java/com/example/cardscanner/util/CameraUtil.kt:40 | round trip: joining the tokens with single spaces gives the line back |
| `StringExt.SplitTokensAreInfixes` | CardScanner/src/main/java/com/example/cardscanner/util/CameraUtil.kt:40 | every token occurs verbatim, as a contiguous run, in the line |
| `CardNumberPattern.CreditCardRegex` | CardScanner/src/main/java/com/example/cardscanner/util/CameraUtil.kt:17-18 | the six alternatives of `creditCardPattern` as a regular-expression term, in the source's order |
| `CardNumberPattern.InCardPattern` | CardScanner/src/main/java/com/example/cardscanner/util/CameraUtil.kt:18 | a digit string is in the pattern when one of the six per-issuer predicates holds; `CardPatternIsRegex` equates it with the regular expression |
| `CardNumberPattern.VisaBranch` | CardScanner/src/main/java/com/example/cardscanner/util/CameraUtil.kt:18 | the first alternative matches exactly `4` then 12 or 15 digits |
| `CardNumberPattern.MastercardBranch` | CardScanner/src/main/java/com/example/cardscanner/util/CameraUtil.kt:18 | the second alternative matches exactly `2` or `5`, a digit 1–7, then 14 digits |
| `CardNumberPattern.DiscoverHeadMatch` | CardScanner/src/main/java/com/example/cardscanner/util/CameraUtil.kt:18 | the group after the leading `6` matches exactly `011`, or `5` and two digits |
| `CardNumberPattern.DiscoverBranch` | CardScanner/src/main/java/com/example/cardscanner/util/CameraUtil.kt:18 | the third matches exactly `6011` or `65dd`, then 12 digits |
| `CardNumberPattern.AmexBranch` | CardScanner/src/main/java/com/example/cardscanner/util/CameraUtil.kt:18 | the fourth matches exactly `34` or `37`, then 13 digits |
| `CardNumberPattern.DinersHeadMatch` | CardScanner/src/main/java/com/example/cardscanner/util/CameraUtil.kt:18 | the group after the leading `3` matches exactly `0` and a digit up to 5, or `6` or `8` and a digit |
| `CardNumberPattern.DinersBranch` | CardScanner/src/main/java/com/example/cardscanner/util/CameraUtil.kt:18 | the fifth matches exactly `300`–`305`, `36d` or `38d`, then 11 digits |
| `CardNumberPattern.JcbBranch` | CardScanner/src/main/java/com/example/cardscanner/util/CameraUtil.kt:18 | the sixth matches exactly `2131` or `1800` then 11 digits, or `35ddd` then 11 digits |
| `CardNumberPattern.CardPatternIsRegex` | CardScanner/src/main/java/com/example/cardscanner/util/CameraUtil.kt:17-18 | the one-disjunct-per-alternative predicate is exactly the language of `creditCardPattern` under whole-string matching |
| `CardNumberPattern.IsCardNumberValid` | CardScanner/src/main/java/com/example/cardscanner/util/CameraUtil.kt:103-104 | an accepted line, spaces removed, is all ASCII digits, 13 to 16 of them |
| `CardNumberPattern.CardNumberValidIffRegex` | CardScanner/src/main/java/com/example/cardscanner/util/CameraUtil.kt:103-104 | a line is accepted if and only if its space-stripped text matches `creditCardPattern` as a whole |
| `CardNumberPattern.MastercardBranchIsWide` | CardScanner/src/main/java/com/example/cardscanner/util/CameraUtil.kt:18 | 16-digit numbers starting 21, 27 or 57 are accepted, although they lie outside the Mastercard issuer ranges |
| `CardNumberPattern.WrongPrefixRejected` | CardScanner/src/main/java/com/example/cardscanner/util/CameraUtil.kt:18 | a number of accepted length with a prefix no alternative names, or a Visa prefix at length 14, is rejected |
| `ExpiryDate.SuffixValue` | CardScanner/src/main/java/com/example/cardscanner/util/CameraUtil.kt:109 | the parsed last two characters are never negative |
| `ExpiryDate.TwoDigitSuffix` | CardScanner/src/main/java/com/example/cardscanner/util/CameraUtil.kt:109 | for `MM/YY` with digits `YY`, the suffix value is the two-digit year |
| `ExpiryDate.MaxSuffix` | CardScanner/src/main/java/com/example/cardscanner/util/CameraUtil.kt:109 | null exactly on the empty list; otherwise a value some candidate has and no candidate exceeds |
| `ExpiryDate.FindFirst` | CardScanner/src/main/java/com/example/cardscanner/util/CameraUtil.kt:113 | null exactly when no candidate's suffix equals the target; otherwise the candidate at the first such position |
| `ExpiryDate.GetExpiryDate` | CardScanner/src/main/java/com/example/cardscanner/util/CameraUtil.kt:107-116 | empty if and only if `maxOfOrNull` gives null or 0, whatever `parseInt` does with a sign; with non-negative suffix values, if and only if every suffix is 0 (the empty list included); otherwise a list element, the first whose suffix is the maximum |
| `ExpiryDate.FirstMaxIsFirstLatest` | CardScanner/src/main/java/com/example/cardscanner/util/CameraUtil.kt:109-113 | the first candidate whose suffix equals the maximum bounds every suffix and strictly exceeds every earlier one |
| `ExpiryDate.OneCandidate` | CardScanner/src/main/java/com/example/cardscanner/util/CameraUtil.kt:107-116 | a lone candidate with a non-zero year suffix is selected |
| `ExpiryDate.FirstLatestIsUnique` | CardScanner/src/main/java/com/example/cardscanner/util/CameraUtil.kt:113 | the first position with the maximum suffix is unique, so the selection is determined |
| `ExpiryDate.TieGoesToFirst` | CardScanner/src/main/java/com/example/cardscanner/util/CameraUtil.kt:109-115 | `["05/24", "11/23", "09/24"]` selects `"05/24"`: ties on the year go to the earlier candidate |
| `ExpiryDate.AllZeroYearsRejected` | CardScanner/src/main/java/com/example/cardscanner/util/CameraUtil.kt:109-111 | candidates that all end in `00`, and the empty list, give `""` |
| `VisionText.Flatten` | CardScanner/src/main/java/com/example/cardscanner/util/CameraUtil.kt:32 | `flatMap { it.lines }`: the lines of every block, block after block |
| `VisionText.FlattenMembership` | CardScanner/src/main/java/com/example/cardscanner/util/CameraUtil.kt:32 | the flattened lines are exactly the lines of all blocks |
| `VisionText.FlattenAppend` | CardScanner/src/main/java/com/example/cardscanner/util/CameraUtil.kt:32 | flattening keeps block order: earlier blocks' lines come first |
| `VisionText.DateTokens` | CardScanner/src/main/java/com/example/cardscanner/util/CameraUtil.kt:40 | the filter on the split tokens: tokens of five characters containing `/`, in order |
| `VisionText.DateTokensMembership` | CardScanner/src/main/java/com/example/cardscanner/util/CameraUtil.kt:40 | the filter keeps a token exactly when it has five characters and a `/` |
| `VisionText.DateTokensAppend` | CardScanner/src/main/java/com/example/cardscanner/util/CameraUtil.kt:40 | the filter keeps token order: filtering two runs back to back gives the first run's kept tokens, then the second's |
| `VisionText.LineDates` | CardScanner/src/main/java/com/example/cardscanner/util/CameraUtil.kt:36-44 | what one line adds to `datesList`: the whole line when it has five characters and `/`, its filtered tokens when it is longer and has `/` |
| `VisionText.LineDatesAreCandidates` | CardScanner/src/main/java/com/example/cardscanner/util/CameraUtil.kt:36-44 | every candidate a line contributes has length 5 and contains `/` |
| `VisionText.LineDatesCases` | CardScanner/src/main/java/com/example/cardscanner/util/CameraUtil.kt:36-44 | a short or slash-free line adds nothing; a 5-character line with `/` is added whole; a longer line with `/` adds exactly its space-separated tokens of that shape, and nothing if it has no space |
| `VisionText.LineDatesAreVerbatim` | CardScanner/src/main/java/com/example/cardscanner/util/CameraUtil.kt:36-44 | every candidate is a contiguous run of its line |
| `VisionText.Dates` | CardScanner/src/main/java/com/example/cardscanner/util/CameraUtil.kt:32-44 | `datesList` after the scan: each line's candidates, line after line |
| `VisionText.DatesAreCandidates` | CardScanner/src/main/java/com/example/cardscanner/util/CameraUtil.kt:32-44 | every collected candidate has length 5 and contains `/`, so each is long enough for the year suffix |
| `VisionText.DatesSnoc` | CardScanner/src/main/java/com/example/cardscanner/util/CameraUtil.kt:32-44 | scanning one more line appends exactly that line's candidates |
| `VisionText.DatesAreVerbatim` | CardScanner/src/main/java/com/example/cardscanner/util/CameraUtil.kt:32-44 | every collected candidate occurs verbatim in some scanned line |
| `VisionText.DatesAppend` | CardScanner/src/main/java/com/example/cardscanner/util/CameraUtil.kt:32-44 | candidates keep line order: earlier lines' candidates come first |
| `VisionText.ScanOrder` | CardScanner/src/main/java/com/example/cardscanner/util/CameraUtil.kt:32-44 | candidates keep block order: earlier blocks' candidates come first |
| `VisionText.CardNumber` | CardScanner/src/main/java/com/example/cardscanner/util/CameraUtil.kt:30-46 | `""` if and only if no line is accepted; otherwise the space-stripped text of the last accepted line |
| `VisionText.Extract` | CardScanner/src/main/java/com/example/cardscanner/util/CameraUtil.kt:22-56 | a null receiver never fires the callback; when it fires, both the card number and the date are non-empty |
| `VisionText.CardNumberFound` | CardScanner/src/main/java/com/example/cardscanner/util/CameraUtil.kt:30-50 | a card number is found if and only if some line is accepted by the pattern |
| `VisionText.ExpiryDateFound` | CardScanner/src/main/java/com/example/cardscanner/util/CameraUtil.kt:50 | a date is selected if and only if some candidate has a non-zero year suffix |
| `VisionText.ExtractFiresExactly` | CardScanner/src/main/java/com/example/cardscanner/util/CameraUtil.kt:22-56 | every candidate is long enough, and the callback fires exactly when some line is accepted as a card number and some candidate has a non-zero year suffix |
| `VisionText.ExtractFiresByMax` | CardScanner/src/main/java/com/example/cardscanner/util/CameraUtil.kt:50 | the callback fires exactly when some line is accepted and `maxOfOrNull` of the year suffixes is neither null nor 0, independent of how `parseInt` treats a sign |
| `VisionText.ExtractArguments` | CardScanner/src/main/java/com/example/cardscanner/util/CameraUtil.kt:50-54 | when it fires, the callback receives the space-stripped text of the last accepted line (13 to 16 digits), the first candidate with the largest year suffix (five characters with a `/`), and `getCardType` of that number |
| `VisionText.ScanStep` | CardScanner/src/main/java/com/example/cardscanner/util/CameraUtil.kt:32-46 | one iteration of the scan: `datesList` grows by the line's candidates, and `cardNumber` becomes the stripped line if it is accepted and stays unchanged otherwise |
| `VisionText.AppendDateTokens` | CardScanner/src/main/java/com/example/cardscanner/util/CameraUtil.kt:40-43 | the inner loop appends exactly the tokens of candidate shape, in their order |
| `VisionText.ScanLines` | CardScanner/src/main/java/com/example/cardscanner/util/CameraUtil.kt:28-48 | the loop leaves `datesList` equal to `Dates` and `cardNumber` equal to `CardNumber` of the lines |
| `VisionText.SetValuesFromVisionText` | CardScanner/src/main/java/com/example/cardscanner/util/CameraUtil.kt:22-56 | the callback fires at most once, and with exactly the arguments `Extract` describes |
| `VisionText.EndToEndVisa` | CardScanner/src/main/java/com/example/cardscanner/util/CameraUtil.kt:22-56 | the lines `JOHN DOE`, `4532 0151 1283 0366`, `VALID THRU`, `08/25`, `CVV 123` yield `4532015112830366` and `08/25` |

## Left out

- `scaleImage` (lines 58-101): floating-point scaling and a platform bitmap call with an exception handler that only logs.
- `preprocessForOcr` and `adjustContrast` (lines 119-150): platform colour-matrix pixel filters with float coefficients.
- ML Kit's `Text`, `TextBlock` and `Line` types: only each line's string, in block and line order, is modelled.
- `getCardType`, the card type names and icons: they are defined in a file that is not part of this model, so the model passes the function in as a parameter and does not specify it.
- `Log` calls and the tag constants: logging has no behaviour to model.
- `StringExt.ParseInt`: `parseInt` is defined in a file that is not part of this model. A string of ASCII digits gives its decimal value; any other string (a suffix such as `/5` or `-1`) is taken to give 0, so suffix values are never negative. The all-zero forms of `ExpiryDate.GetExpiryDate`, `VisionText.ExpiryDateFound` and `VisionText.ExtractFiresExactly` rest on that default: with a helper that reads a sign, `["12/-1", "01/00"]` would give `""` although not every suffix is 0. The forms stated through `maxOfOrNull` (the first ensures of `ExpiryDate.GetExpiryDate`, and `VisionText.ExtractFiresByMax`) do not depend on it.
- `VisionText.LineDates`, `VisionText.IsDateCandidate` and `ExpiryDate.SuffixValue`: lengths, and the two-character year suffix, are counted in Unicode code points, not in Kotlin's UTF-16 units. A line holding a character outside the Basic Multilingual Plane is longer in Kotlin than here, so such a line (for example `1`, an emoji, `/24`) is a candidate in the model but not in the source.
- `ExpiryDate.GetExpiryDate`: requires every candidate to have at least two characters. Kotlin's `substring` would throw on a shorter one, and every candidate the scan collects has five.
- `VisionText.SetValuesFromVisionText`: the callback's side effects are outside the model. Its invocation is the returned option.
