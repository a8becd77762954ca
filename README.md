# Circulaire parser — a Dafny model

The repository reads the Tunisian central pharmacy's price circulaires. These are
PDF letters in Arabic and French that list medications with their code, their name
and three prices (public, pharmacy, wholesale), grouped under category headings.
This project models the pipeline that turns the extracted text into medication
records, and proves properties of that model:

- **Page text.** A page is sent to OCR when it has no characters, too little text or
  too few Arabic letters. The OCR output or the raw text is then normalized and
  appended to the document.
- **Arabic normalizer** (`normalize_arabic`). Presentation forms and Arabic-Indic
  digits are mapped through the fixed table. Any other character goes through NFKC.
- **Header.** The circulaire's date and number are extracted.
- **Section segmenter.** The heading matches of every category are pooled, stably
  sorted by start and filtered greedily so that no two overlap. The breaks are
  sorted. Each section body ends at the next heading or at the first break inside it.
- **Line scanner.** A state machine over the lines of a body, with a current and a
  pending laboratory name. It uses the laboratory-line classifier, the ordered
  cascade of medication-line patterns (first match wins) and the tiered public-price
  estimate.
- **Aggregation.** `parse` concatenates the sections' records and counts them.
  `_create_simplified` groups the records by laboratory in first-appearance order.

The repository holds the parser three times, and the copies have drifted:

- `circulaire_service.py`, the service;
- `parse_circulaire.py`, the standalone script;
- `addons/phct_circulaire/models/circulaire.py`, the Odoo add-on.

The standalone script reads text that `script.py` extracted. So the normalizer and
the page loop exist three times: in the service, in the add-on and in `script.py`.
The model takes the parser copy as a parameter (`Copies.Copy`) wherever the copies
differ:

- The add-on's cascade stops after pattern 3.
- The standalone script parses veterinary sections; the other two skip them.
- The standalone script writes the tier chain out inline rather than calling
  `_calculate_sale_price`. `Prices.InlineSalePriceAgrees` proves the two agree.

Modules, in dependency order:

- `Wrappers`: `Option`.
- `Text`: character classes and Python string methods.
- `Tokens`: the price and number tokens.
- `Sorting`: a stable insertion sort with its proofs.
- `Normalizer`, `PdfText`, `Header`, `Prices`, `Names`, `Patterns`, `MedLines`,
  `LabLines`, `Segmenter`, `Scanner`, `Circulaire`, `Simplified`: one each for the
  pieces listed above.
- `Copies`: the `Copy` datatype.
- `Acceptance`: which well-formed lines each medication-line pattern accepts, and
  the fields it reads from them.
- `SampleLine`: one line followed through the whole of `_parse_medication_line`.

Three details of the code that are easy to misread, and that the model follows:

- The skip rule `(mois|Vie|AMM|EXP)` of the laboratory-line classifier goes through
  `re.match` (circulaire_service.py:446-452). It therefore rejects a line only when
  the line *begins* with one of these words, not whenever the line contains one.
- Patterns 1 to 5 see the cleaned line (circulaire_service.py:478-483). By then every
  whitespace run is a single space, so their `\s+` is one space. Patterns 6 and 7
  see that line with its square brackets deleted (circulaire_service.py:607). Deleting
  a bracket that stands between two spaces leaves two spaces in a row.
- The add-on's body bound is `next.start`, without the `min` with `len(text)` that
  the other copies take (addons/phct_circulaire/models/circulaire.py:556-559,
  circulaire_service.py:714-716). `Segmenter.BoundsAgree` proves this makes no
  difference.

## Model

| member | source | states |
|---|---|---|
| Normalizer.NormalizeArabic | circulaire_service.py:128-138 | The loop returns the in-order concatenation of the per-character images, and returns an empty input unchanged (the copies at addons/phct_circulaire/models/circulaire.py:177-186 and script.py:81-99 are the same). |
| Normalizer.TableKeys | circulaire_service.py:82-125 | The table has a key for exactly the characters U+FE80..U+FEFC and U+0660..U+0669. |
| Normalizer.TableValuesAreBase | script.py:32-78 | Every table value has one or two characters. Each is a base Arabic letter or an ASCII digit. No value contains a key. |
| Normalizer.LamAlefBecomesTwoLetters | circulaire_service.py:113-116 | Each LAM-ALEF ligature U+FEF5..U+FEFC becomes the two letters LAM ALEF. |
| Normalizer.ArabicIndicDigitBecomesAscii | circulaire_service.py:123-124 | U+0660..U+0669 become `'0'..'9'`. |
| Normalizer.NormalizedAppend | circulaire_service.py:133-138 | Normalization distributes over concatenation. |
| Normalizer.BaseStringIsNormal | circulaire_service.py:133-138 | A string of base characters is unchanged, given that NFKC fixes them. |
| Normalizer.NormalizedIdempotent | circulaire_service.py:128-138 | Normalizing twice equals normalizing once, given that NFKC fixes the base characters and that NFKC's output is itself normal. |
| Normalizer.NormalizedHasNoTableKey | circulaire_service.py:128-138 | If NFKC never produces a key, no presentation form of the table and no Arabic-Indic digit is left in the output. |
| PdfText.CountArabicLetters | script.py:214-227 | The loop counts exactly the characters of U+0600..U+06FF, U+FB50..U+FDFF and U+FE70..U+FEFF. The count is at most the length. |
| PdfText.ArabicLetterCountAppend | script.py:214-227 | The count is additive over concatenation. |
| PdfText.ArabicLetterCountZero | script.py:214-227 | The count is zero exactly when no character is an Arabic letter. |
| PdfText.ExtractText | circulaire_service.py:333-355 | The page loop yields each page's text followed by a newline, in page order. A page's text is the normalized OCR text when the page has no characters, under 5 stripped characters or under 3 Arabic letters, and the normalized raw text otherwise. |
| PdfText.DocumentTextPrefix | script.py:235-251 | The document has at least one character per page. The text of the first n pages is a prefix of the whole. |
| PdfText.PageHasNoTableKey | circulaire_service.py:345-352 | No page contributes a table key, whether it was OCR'd (`_ocr_page` normalizes its output, circulaire_service.py:309) or not, given that NFKC produces none. |
| PdfText.DocumentHasNoTableKey | circulaire_service.py:341-355 | The whole extracted document has no table key, given that NFKC produces none. |
| PdfText.NoArabicLetterMeansOcr | circulaire_service.py:345-348 | A page with no Arabic letter is always OCR'd. |
| Header.DateAt | circulaire_service.py:220 | A match of `(\d{1,2})/(\d{1,2})/(\d{4})` has groups of 1–2, 1–2 and 4 digits. |
| Header.ArabicDateAt | circulaire_service.py:366-376 | A match of the Arabic-introduced date yields a valid date. That date is also a match of the plain date pattern at some later offset. |
| Header.DateAfterRun | circulaire_service.py:368 | After the whitespace-and-colon run, the date is read where that run ends. |
| Header.ZFill2 | circulaire_service.py:371 | `zfill(2)` gives two characters to a group of one or two digits, and leaves a longer group alone. |
| Header.ZFill2Value | circulaire_service.py:371 | Padding keeps the digits and the numeric value. |
| Header.FormatDateRoundTrip | circulaire_service.py:370-371 | The formatted date is `YYYY-MM-DD`. Reading it back gives the year as written and the month and day values. |
| Header.ExtractDateFound | circulaire_service.py:366-376 | A date is found exactly when the plain date pattern matches somewhere, and it is then `YYYY-MM-DD`. |
| Header.NumberAt | circulaire_service.py:221 | A match of `(?:رقم\|:)\s*(\d{4})/(\d{1,2})` has a four-digit year and a one- or two-digit number. |
| Header.CirculaireNumberShape | circulaire_service.py:379-385 | The number is `YYYY/NN`: seven characters, a slash at 4, digits elsewhere. |
| Header.FormatNumberRoundTrip | circulaire_service.py:382-384 | Reading the formatted number back gives the year and the number's value. |
| Prices.FirstTierRatio | circulaire_service.py:470-472 | A ratio is found exactly when some tier's threshold is reached. |
| Prices.TierBands | circulaire_service.py:468-473 | At 25 dinars or more the ratio is 1.316; from 8 it is 1.351; from 3 it is 1.389; below that 1.429. The loop always finds a tier. The standalone script's inline chain picks the same ratio. |
| Prices.TierRatioAntitone | circulaire_service.py:70-75 | A higher price never gets a higher ratio. |
| Prices.RoundDivNearest | circulaire_service.py:472 | Rounding to millimes lands within half a millime of the exact product. |
| Prices.RoundingModesDifferOnlyAtTies | circulaire_service.py:472 | Half-up and half-even rounding differ only on exact ties, and then by one millime. |
| Prices.RoundDivMonotone | circulaire_service.py:472 | Rounding is monotone. |
| Prices.SalePrice | circulaire_service.py:468-473 | The estimate has three decimals. |
| Prices.InlineSalePriceAgrees | parse_circulaire.py:554-567 | The standalone script's inline estimate equals `_calculate_sale_price` on every price. |
| Prices.SalePriceBounds | circulaire_service.py:468-473 | The estimate lies between the price times 1.316 and times 1.429 (both rounded), and is never below the price itself. |
| Prices.SalePriceNotMonotone | circulaire_service.py:70-75 | The estimate is not monotone: 24.999 gives 33.774, but 25.000 gives 32.900. |
| Prices.SalePriceExamples | circulaire_service.py:468-473 | 30.000 gives 39.480; 5.000 gives 6.945. |
| Prices.MillimeSalePrice | circulaire_service.py:468-473 | For a price in millimes, the estimate is the price times its band's ratio, rounded to millimes. |
| Tokens.FirstSome | circulaire_service.py:486 | `re.search` semantics: the first offset that matches, and nothing exactly when no offset matches. |
| Tokens.FirstSomeWitness | circulaire_service.py:486 | Any matching offset makes the search succeed. |
| Tokens.Price3 | circulaire_service.py:212-214 | `\d{1,3}[,\.]\d{3}` yields a token with at most three integer digits and exactly three decimals. |
| Tokens.Number | circulaire_service.py:216-218 | `\d+[,\.]\d+` yields a token whose digit runs are maximal. |
| Tokens.Margin | circulaire_service.py:213 | `\d[,\.]\d{3}` yields a token with one digit and three decimals. |
| Tokens.Value | circulaire_service.py:493-495 | `float(p.replace(',', '.'))` read exactly: the scale is the number of decimals, three for a price token. |
| Tokens.HasDosagePrefix | circulaire_service.py:615 | A dosage token of a prefix is a dosage token of the whole. |
| Tokens.PriceExample | circulaire_service.py:213 | "12,500" reads as 12.500. |
| Tokens.NumberExample | circulaire_service.py:217 | "7.25" reads as 7.25. |
| Text.Strip | circulaire_service.py:478 | `str.strip()` yields a slice of the input with no whitespace at either end. |
| Text.CollapseSpaces | circulaire_service.py:483 | `re.sub(r'\s+', ' ', s)` leaves only single `' '` characters as whitespace, and keeps whether the string starts with whitespace. |
| Text.StripCollapsedIsSingleSpaced | circulaire_service.py:483 | Collapsing, then stripping, gives a single-spaced string. |
| Text.CollapseSingleSpaces | circulaire_service.py:483 | Collapsing a string whose whitespace is already single spaces changes nothing. |
| Text.RemoveBidi | circulaire_service.py:482 | The result has no bidirectional mark, and a string without any is unchanged. |
| Text.ReplaceChar | circulaire_service.py:482 | `replace('\|', ' ')` replaces each character on its own. |
| Text.SplitOn | circulaire_service.py:656 | `split('\n')` gives at least one part, and no part contains the separator. |
| Text.JoinSplit | circulaire_service.py:656 | Joining the parts with the separator gives the text back. |
| Text.NotContainsMissingChar | circulaire_service.py:394-396 | A substring with a character the string lacks does not occur. |
| Names.CleanMedicationName | circulaire_service.py:423-429 | The cleaned name is single-spaced and never longer than the group it came from. |
| Names.CleanNameFixpoints | circulaire_service.py:423-429 | A name is unchanged exactly when it is single-spaced and neither starts nor ends with a bracket. |
| Names.CleanNameNotIdempotent | circulaire_service.py:427-428 | Cleaning is not idempotent: `"[ [x"` cleans to `"[x"`, which then cleans to `"x"`. |
| Patterns.ReportedCategory | circulaire_service.py:496 | A category `-` is reported as none. Any other captured category is kept. |
| Patterns.SpacedPrices | circulaire_service.py:212-214 | n prices, each after a whitespace run, give n valid tokens inside the line. The three-decimal form gives millimes. |
| Patterns.Pattern1 | circulaire_service.py:485-498 | Pattern 1 yields a six-digit code and a public price. Every price has three decimals, the category is A, B or C, the margin has three decimals, and the name is single-spaced. |
| Patterns.Pattern2 | circulaire_service.py:500-517 | The code-at-end pattern yields a code, a public price, three-decimal prices and always a category and a margin. |
| Patterns.Pattern2b | circulaire_service.py:519-535 | The dash pattern yields a code and a public price but neither category nor margin. |
| Patterns.Pattern2c | circulaire_service.py:537-553 | The simple code-at-end pattern yields a code and a public price but neither category nor margin. |
| Patterns.MarginProbe | circulaire_service.py:560 | The margin probe finds a three-decimal token followed only by whitespace. |
| Patterns.Pattern3 | circulaire_service.py:555-570 | The alternative pattern yields a code and a public price. Any category is A, B or C, and any margin has three decimals. |
| Patterns.Pattern4 | circulaire_service.py:572-586 | The two-price pattern yields a code, no public price, and neither category nor margin. |
| Patterns.Pattern5 | circulaire_service.py:588-604 | The two-price pattern with optional category and margin yields a code and no public price. |
| Patterns.WithoutBrackets | circulaire_service.py:607 | No square bracket is left. |
| Patterns.NoCodePattern | circulaire_service.py:606-645 | Patterns 6 and 7 yield no code, three-decimal prices, a public price exactly for pattern 6, always a category and a margin, and a single-spaced name. |
| Patterns.Pattern6 | circulaire_service.py:606-625 | The three-price pattern without a code yields a public price, a category and a margin, but no code. |
| Patterns.Pattern7 | circulaire_service.py:627-645 | The two-price pattern without a code yields neither code nor public price, but a category and a margin. |
| MedLines.FirstMatch | circulaire_service.py:485-647 | The first stage that matches, with its fields. Nothing exactly when no stage matches. |
| MedLines.FirstMatchIsFirst | circulaire_service.py:485-647 | The result is the stage at position k exactly when stage k matches and no earlier stage does. |
| MedLines.FirstMatchPrefix | circulaire_service.py:485-647 | Once a prefix of the cascade matches, later stages are never reached. |
| MedLines.RunStageShape | circulaire_service.py:485-645 | Each stage's record has that stage's shape. |
| MedLines.CleanLine | circulaire_service.py:478-483 | The line the patterns see is single-spaced. |
| MedLines.CleanLineOfCleanLine | circulaire_service.py:482-483 | A single-spaced line without bidirectional marks or `\|` is unchanged by cleaning. |
| MedLines.ParseMedicationLine | circulaire_service.py:476-647 | A blank line gives nothing. A record comes exactly when some stage of the copy's cascade matches. It carries the laboratory it was given and comes from a stage whose shape it has. |
| MedLines.Pattern5ImpliesPattern4 | circulaire_service.py:572-604 | Every line pattern 5 accepts is accepted by pattern 4. |
| MedLines.Pattern5NeverFires | circulaire_service.py:588-604 | No record ever comes from pattern 5, in any copy. |
| MedLines.StageAfterSubsumingStage | circulaire_service.py:572-604 | A stage 5 that matches only where stage 4 does is never the first match. |
| MedLines.AddonRecordsHaveCodeAndPublicPrice | addons/phct_circulaire/models/circulaire.py:406-501 | The add-on's records always have a six-digit code and a public price. |
| MedLines.CodelessRecordsHaveDosage | circulaire_service.py:606-645 | A record without a code has a dosage token in its name, and so in its bracket-free line. |
| MedLines.NoCodeDosage | circulaire_service.py:606-645 | Patterns 6 and 7 fire only when the name group has a dosage token. The record's name, that group cleaned, still has it. |
| Names.CleanKeepsDosage | circulaire_service.py:423-429 | Cleaning a name without brackets keeps its dosage token: only whitespace is collapsed or trimmed. |
| Tokens.DosageParts | circulaire_service.py:615 | A dosage token splits its string into a digit, a whitespace run and a unit, with what comes before and after. |
| Tokens.DosageIn | circulaire_service.py:615 | A digit, a whitespace run and a unit make a dosage token wherever they sit. |
| Acceptance.Pattern1Accepts | circulaire_service.py:485-498 | A code, a name, three price tokens, a category A–C and a margin, one space apart, are read back by pattern 1 as written: the code and name as they are, each price and the margin as the decimal its digits spell. |
| Acceptance.Pattern2Accepts | circulaire_service.py:500-517 | A name, three prices, a category, a margin and the code, one space apart, are read back by pattern 2 as written. |
| Acceptance.Pattern2bAccepts | circulaire_service.py:519-535 | A name, three prices, a dash and the code are read back by pattern 2b, with neither category nor margin. |
| Acceptance.Pattern2cAccepts | circulaire_service.py:537-553 | A name, three prices and the code are read back by pattern 2c, with neither category nor margin. |
| Acceptance.Pattern3Accepts | circulaire_service.py:555-570 | A code, a name, three number tokens of any width, a category and a margin are read back by pattern 3 as written. |
| Acceptance.Pattern4Accepts | circulaire_service.py:572-586 | A capitalised name, two number tokens and the code are read back by pattern 4, with no public price. |
| Acceptance.Pattern6Accepts | circulaire_service.py:606-625 | A name with a dosage, three prices, a category and a margin are read back by pattern 6, with no code. |
| Acceptance.Pattern7Accepts | circulaire_service.py:627-645 | A name with a dosage, two prices, a category and a margin are read back by pattern 7, with neither code nor public price. |
| SampleLine.SampleRecord | circulaire_service.py:476-498 | In every copy, `123456 SOMEDRUG 10,000 12,000 15,000 A 1,500` gives the record with code 123456, prices 10.000, 12.000 and 15.000, category A and margin 1.500, under the laboratory in force. |
| LabLines.IsLaboratoryLine | circulaire_service.py:432-465 | A line is a laboratory line exactly when it passes every rejection rule and has a company keyword or reads as a 3–60 letter name in capitals. The rejection rules are: length under 4, more than three digits, Arabic from 30%, a start-anchored dosage, digit, rule or skip word, and no Latin letter. |
| LabLines.LabTextIdempotent | circulaire_service.py:434 | Cleaning a cleaned line changes nothing. |
| LabLines.ClassifyCleanedLine | circulaire_service.py:660-662 | The cleaned line the scanner passes is classified as the raw line would be. |
| LabLines.CodedLineIsNotLabLine | circulaire_service.py:438-440 | A line with a six-digit run is never a laboratory line. |
| LabLines.DigitRunCounts | circulaire_service.py:438 | A digit run is counted in full. |
| LabLines.FirstLabName | parse_circulaire.py:204-223 | The early-return scan gives nothing exactly when no line qualifies. |
| LabLines.FirstLabNameIsFirst | parse_circulaire.py:206-222 | The name returned is that of the first qualifying line. |
| LabLines.ExtractLaboratoryName | parse_circulaire.py:204-223 | A returned name is single-spaced, unchanged by `upper()` and free of Arabic. |
| LabLines.LabNameIsCleanLine | parse_circulaire.py:210-221 | A qualifying line is free of Arabic and of lower case, and gives its own whitespace-collapsed text. |
| LabLines.DosageFilterNeverRejects | parse_circulaire.py:218-219 | The dosage-form filter rejects nothing: every prefix it tests has a lower-case letter, and a name that reaches it has none. |
| Segmenter.KindLabels | circulaire_service.py:394 | Exactly the three `new_` keys give type new. |
| Segmenter.SpecialtyLabels | circulaire_service.py:395 | Exactly the two veterinary keys give specialty veterinary. |
| Segmenter.OriginLabels | circulaire_service.py:396 | Exactly the two `local` keys give origin local, so both veterinary keys are imported. |
| Segmenter.SectionLabels | circulaire_service.py:394-396 | A section's labels are the substring tests on its key's name. |
| Segmenter.Candidates | circulaire_service.py:391-404 | One candidate per match, with the match's span and the category key. |
| Segmenter.FindCategorySections | circulaire_service.py:388-411 | Pool the candidates in category, pattern and match order; stably sort by start; filter greedily. |
| Segmenter.PoolHeadings | circulaire_service.py:390-404 | The three nested loops give the pooled candidates in that order. |
| Segmenter.PoolCategory | circulaire_service.py:392-404 | One category's candidates, pattern by pattern. |
| Segmenter.AppendCandidates | circulaire_service.py:393-404 | The innermost loop appends one candidate per match. |
| Segmenter.GreedyFilter | circulaire_service.py:408-410 | The filtering loop computes the greedy filter. |
| Segmenter.GreedyNonOverlapping | circulaire_service.py:408-410 | The kept sections do not overlap and are sorted by start. |
| Segmenter.GreedyElements | circulaire_service.py:408-410 | Every kept section is a candidate. |
| Segmenter.GreedySubsequence | circulaire_service.py:408-410 | The result is a subsequence of the sorted candidates. |
| Segmenter.GreedyKeepsFirst | circulaire_service.py:408-410 | The first candidate is always kept, and kept first. |
| Segmenter.GreedyCovers | addons/phct_circulaire/models/circulaire.py:349-355 | Over sorted candidates, a dropped candidate starts inside a kept section. |
| Segmenter.FindSectionBreaks | circulaire_service.py:414-420 | The breaks are every match start, sorted ascending, with duplicates kept. |
| Segmenter.BoundsAgree | addons/phct_circulaire/models/circulaire.py:556-559 | The add-on's bound `next.start` equals the other copies' `min(len(text), next.start)` for matches inside the text. |
| Segmenter.SectionEnd | circulaire_service.py:714-718 | The break loop stops at the first break strictly inside the span. |
| Segmenter.FirstBreakIsSmallest | circulaire_service.py:711-718 | Over sorted breaks, the body ends at the smallest break strictly inside the span, or at the bound when there is none, and lies between the two ends. |
| Sorting.InsertByPermutation | circulaire_service.py:407 | One insertion step adds exactly the inserted element. |
| Sorting.InsertByWithKey | circulaire_service.py:407 | Insertion puts the new element before every element of its own key already placed. |
| Sorting.InsertBySorted | circulaire_service.py:407 | Insertion into a sorted list keeps it sorted. |
| Sorting.SortBySorted | circulaire_service.py:407 | `sort(key=start)` orders by the key. |
| Sorting.SortByPermutation | circulaire_service.py:407 | The sort is a permutation. |
| Sorting.SortByStable | circulaire_service.py:407 | The sort is stable: equal keys keep their input order. |
| Scanner.ContextFor | circulaire_service.py:650-693 | The copy's scan context carries the copy, the rounding mode and the section. |
| Scanner.ContextForContract | circulaire_service.py:680 | The copy's line parser returns records that carry the given laboratory. The add-on's parser also guarantees a code and a public price. |
| Scanner.LabStep | circulaire_service.py:663-674 | A laboratory line adds no record. It joins the pending name when that name ends with `AND` or `&`, or when the line is in capitals with at most three words. Otherwise it starts a new pending name and finalises the old one. |
| Scanner.EstimateAgrees | parse_circulaire.py:554-567 | The three copies give every price the same estimate. |
| Scanner.MakeRecord | circulaire_service.py:682-689 | The record carries the section's labels. The estimate is applied exactly when the public price is missing and the pharmacy price is non-zero; otherwise the fields are unchanged. |
| Scanner.MedicationStep | circulaire_service.py:676-691 | A non-laboratory line first finalises the pending name. It then adds the parsed record, or nothing when the line does not parse. |
| Scanner.Step | circulaire_service.py:656-691 | A blank line changes nothing. A laboratory line is a `LabStep`. Records are only appended, at most one per line. |
| Scanner.ParseMedicationsFromSection | circulaire_service.py:650-693 | The loop's result is the fold of `Step` over the lines. |
| Scanner.ScanLine | circulaire_service.py:657-691 | One loop iteration on the three variables is one `Step`. |
| Scanner.EffectiveLabIsLabName | circulaire_service.py:676-678 | The laboratory a line is parsed under is a name the scan assembled from laboratory lines. |
| Scanner.StepKeepsStateOk | circulaire_service.py:656-691 | Each line keeps the invariant: every record carries its section's labels, an assembled laboratory name, an estimate exactly when the price was missing, and (in the add-on) a code and its own public price. |
| Scanner.ScanLinesOk | circulaire_service.py:656-691 | The invariant holds after any number of lines, with at most one record per line. |
| Scanner.SectionRecordsOk | circulaire_service.py:650-693 | Every record of a body satisfies the invariant. There are no more records than lines. |
| Scanner.ScanRecordsGrow | parse_circulaire.py:571-575 | Records are only appended: the records after a prefix of the lines are a prefix of the result. The final pending flush therefore cannot change the list. |
| Circulaire.ContextsForAgree | circulaire_service.py:720-721 | The scan the parse uses is the copy's scanner in the section's context. |
| Circulaire.ParseUpToSkip | circulaire_service.py:707-709 | A skipped veterinary section adds nothing. |
| Circulaire.ParseUpToNext | circulaire_service.py:711-729 | A parsed section appends its records and a summary with their count. |
| Circulaire.Parse | circulaire_service.py:696-733 | `parse` returns what `ParseDocument` specifies. |
| Circulaire.ParseSections | circulaire_service.py:710-731 | The loop over the sections gives the medications and summaries of all of them. |
| Circulaire.ParseSection | circulaire_service.py:711-721 | One body is cut at the copy's bound or the first break, then scanned. |
| Circulaire.ScanForContract | circulaire_service.py:720-721 | The copy's scan meets the parse's record contract. |
| Circulaire.ParseUpToOk | circulaire_service.py:707-731 | The parse loop keeps its invariant over any number of sections. |
| Circulaire.ParseStepOk | circulaire_service.py:723-729 | One parsed section keeps the invariant. |
| Circulaire.ParseDocumentOk | circulaire_service.py:696-733 | The counts add up to the medications. The service and the add-on report no veterinary section, the standalone script reports every section, and the add-on never estimates a price. |
| Simplified.CreateSimplified | circulaire_service.py:753-794 | Returns the specified entries. |
| Simplified.GroupByKey | circulaire_service.py:760-772 | The dictionary's keys are the laboratories in insertion order, and each holds its group. |
| Simplified.LabsAreKeys | circulaire_service.py:762-764 | The laboratories are distinct, and are exactly the keys of the medications. |
| Simplified.LabsFirstAppearance | circulaire_service.py:760-764 | The laboratories of a prefix are a prefix of the laboratories, each placed at its first appearance. |
| Simplified.GroupIsFilter | circulaire_service.py:765-772 | A group's k-th member is the k-th medication with that key. |
| Simplified.EntryKindRevised | circulaire_service.py:775-776 | An entry is revised exactly when one of its members is. |
| Simplified.GroupSizesTotal | circulaire_service.py:760-772 | The groups' sizes add up to the number of medications. |
| Simplified.GroupRevised | circulaire_service.py:775-776 | A group is revised exactly when one of the medications with its key is. |
| Simplified.EntriesItemCount | circulaire_service.py:774-792 | The entries' item counts are the group sizes. |
| Simplified.SimplifiedEntries | circulaire_service.py:753-794 | No medications give no entries. Otherwise there is one entry per distinct laboratory, in first-appearance order. Each entry holds its group's items and the circulaire's name, and its type is revised exactly when a member is. Every medication lands in exactly one entry. |

## Left out

- PDF access, OCR and NFKC are foreign libraries. A page is modelled as its raw text, whether it has characters, and its number. The OCR engine's output is a function of the page number, and NFKC is a function from a character to a string. Both are parameters. The model applies `normalize_arabic` to the OCR output itself, as `_ocr_page` does (circulaire_service.py:309).
- The heading and break regular expressions are Arabic, reversed Arabic and French literals matched by `re`. Their matches are given as lists of spans per pattern in `re.finditer` order. The pooling, sorting, filtering and body arithmetic on them are modelled.
- The medication-line patterns, the date and number patterns and the classifier's keyword tests are hand-written recognisers. They follow Python's backtracking order: a lazy group takes the shortest end that lets the rest match, and a greedy optional group is tried first.
- `\d` and `str.isdigit` are modelled as the ASCII, Arabic-Indic and extended Arabic-Indic digits. Other Unicode digits (superscripts, other scripts) do not occur in a circulaire.
- `\w`, `\b` and `re.IGNORECASE` are modelled over the letters and digits of the scripts a circulaire uses (Latin, Latin-1, Greek mu, Arabic). `str.upper()` is modelled over ASCII, Latin-1 and Greek lower case. `str.isupper()` is modelled over ASCII letters.
- Prices: `float` and `round(x, 3)` are modelled as exact decimals, with the rounding of the estimate an explicit `RoundingMode` (half-up or half-even). Binary floating-point error is not modelled.
- `section_info.get(..., default)`: the defaults are never used, because every section the parse hands over has all three labels.
- The final flush of the pending laboratory name after the loop in `parse_medications_from_section` (parse_circulaire.py:571-573) is modelled: it is the last statement of `Scanner.ParseMedicationsFromSection`. It only updates the laboratory names, and `Scanner.ScanRecordsGrow` shows that it adds no record.
- Logging in the add-on's `_find_category_sections` has no effect on the result and is not modelled.
- `if not parsed` in `_create_simplified` is a `None` check on a dictionary the parse always returns.
- Downloading, HTTP retries and sleeps, the Odoo fields, cron and record creation, JSON and CLI I/O, the table extraction and printing in `script.py`, and the debugging scripts are I/O or persistence, with no parsing logic.
- Prices.SalePrice: its own contract states only the scale. The bands, bounds and agreement with the inline chain are the lemmas beside it.
- Patterns.Pattern1: its own contract states only the shape of the fields. Which lines it accepts, and that it reads their pieces back as written, is `Acceptance.Pattern1Accepts`.
- Patterns.Pattern2: its own contract states only the shape of the fields. Which lines it accepts, and that it reads their pieces back as written, is `Acceptance.Pattern2Accepts`.
- Patterns.Pattern2b: its own contract states only the shape of the fields. Which lines it accepts, and that it reads their pieces back as written, is `Acceptance.Pattern2bAccepts`.
- Patterns.Pattern2c: its own contract states only the shape of the fields. Which lines it accepts, and that it reads their pieces back as written, is `Acceptance.Pattern2cAccepts`.
- Patterns.Pattern3: its own contract states only the shape of the fields. Which lines it accepts, and that it reads their pieces back as written, is `Acceptance.Pattern3Accepts`.
- Patterns.Pattern4: its own contract states only the shape of the fields. Which lines it accepts, and that it reads their pieces back as written, is `Acceptance.Pattern4Accepts`.
- Patterns.Pattern5: its own contract states only the shape of the fields, and it has no acceptance lemma. Pattern 4 accepts every line it accepts (`MedLines.Pattern5ImpliesPattern4`), so it never yields a record (`MedLines.Pattern5NeverFires`).
- Patterns.NoCodePattern: its own contract states only the shape of the fields. What it accepts is `Acceptance.Pattern6Accepts` and `Acceptance.Pattern7Accepts`; its dosage guard is `MedLines.NoCodeDosage`.
- Patterns.Pattern6: its own contract states only the shape of the fields. What it accepts is `Acceptance.Pattern6Accepts`.
- Patterns.Pattern7: its own contract states only the shape of the fields. What it accepts is `Acceptance.Pattern7Accepts`.
- Acceptance lemmas: the name they accept has no word after its first one that opens with a decimal number (`\d+[,\.]`), since the lazy name group would stop at that word. Pattern 4's name also starts with a capital and has at least two characters, as its regular expression demands.
