# Umbrella Assurance premium calculator, modelled in Dafny

Umbrella Assurance is a one-page website for a senior health insurance offer.
Its one piece of domain logic is the premium calculator. The calculator takes
an age from 65 to 94 and a medical-density label, `"forte"` (urban) or
`"faible"` (rural). It looks up the base cost ("prime pure") for that age in a
published two-column table. It then grosses the cost up by the margin rate of
that density (18% or 20%) and by the 15% expense rate:
`prime commerciale = prime pure × (1 + marge) / (1 − frais)`. The loadings
("chargements") are the difference between the premium and the base cost.

Around the calculator, the page applies three small selection rules, and
these are modelled too:
- the zone label chosen in the form becomes a density label;
- the advert video is picked from a folder listing;
- each testimonial's rating becomes a line of star entities.

Files, one module each:
- `wrappers.dfy` (`Wrappers`): `Option` and `Result`.
- `tarif.dfy` (`Tarif`): the rate table `PrimesPures`, `TauxMarge`,
  `TauxFrais` and `CalculPrimeCommerciale`, with the table's shape facts and
  the formula's closed forms.
- `texte.dfy` (`Texte`): the Python string operations the page uses:
  substring test, `startswith`, `endswith`, `lower`.
- `formulaire.dfy` (`Formulaire`): the bounds of the age field and the
  mapping from zone label to density.
- `video.dfy` (`Video`): `sorted` on strings, the scan of `find_video` and
  `os.path.join`.
- `temoignages.dfy` (`Temoignages`): the star string of a testimonial.

The density stays a string, as in the source. The calculator reports the
source's two `KeyError`s as `Err` values, in the order the source raises
them. The age lookup comes first, so age 95 with an unknown density reports
the age. A density other than `"forte"` or `"faible"` passes the column pick,
which reads column 1, and then fails at the margin lookup.

Amounts are exact decimals (`real`). The constants 22.58, 0.18, 0.15 and so
on are therefore the exact values printed in the source, not their binary
floating-point approximations. One consequence: at age 94 and low density,
the premium is 1778.48 × 1.20 / 0.85 = 2510.795…, which displays as 2510.80,
and the loadings are 732.315…

## Model

| member | source | states |
|---|---|---|
| `Tarif.CalculPrimeCommerciale` | app.py:35-42 | an age outside 65..94 gives the age `KeyError`; a known age with a density other than "forte"/"faible" gives the density `KeyError`; it succeeds exactly for ages 65..94 with one of the two densities; on success 0 < base cost < premium, loadings > 0, and base cost + loadings = premium exactly |
| `Tarif.TableDomain` | app.py:19-30 | the table has an entry for an age exactly when the age is between 65 and 94, with no gap and no clamping |
| `Tarif.TablePositive` | app.py:19-30 | every base cost in both columns is positive |
| `Tarif.TableStep` | app.py:19-30 | from one age to the next, the high-density cost strictly rises and the low-density cost does not fall |
| `Tarif.TableMonotone` | app.py:19-30 | for any two ages a <= b of the table, the high-density column is ordered (strictly when a < b) and the low-density column is non-decreasing |
| `Tarif.LowDensityAtLeastHigh` | app.py:19-30 | at every age the low-density cost is at least the high-density cost, and the two are equal only at age 79 |
| `Tarif.DensiteSelection` | app.py:36-39 | for a table age, "forte" reads column 0 with margin 0.18, "faible" reads column 1 with margin 0.20, and both succeed |
| `Tarif.FormulePublique` | app.py:1280-1284 | every successful quote satisfies the published formula: premium × (1 − 0.15) = base cost × (1 + 0.18 or 0.20) |
| `Tarif.ForteClosedForm` | app.py:31-42 | at high density the quote is (p, p·33/85, p·118/85), with p the column-0 cost |
| `Tarif.FaibleClosedForm` | app.py:31-42 | at low density the quote is (p, p·7/17, p·24/17), with p the column-1 cost |
| `Tarif.PrimeComMonotone` | app.py:19-42 | for a fixed density and ages a <= b in 65..94, both quotes succeed, and the premium and the loadings at a are at most those at b |
| `Tarif.OutOfRangeExamples` | app.py:36-39 | ages 64 and 95 are refused with the age error, also when the density is unknown; age 70 with an unknown density is refused with the density error |
| `Tarif.WorkedExamples` | app.py:19-42 | age 65 at high density costs 22.58 base, premium in (31.34, 31.35), loadings in (8.76, 8.77); age 94 at low density costs 1778.48 base, premium in (2510.79, 2510.80), loadings in (732.31, 732.32) |
| `Texte.StartsWith` | app.py:1059 | `s.startswith(p)` holds only when p is no longer than s |
| `Texte.StartsWithChars` | app.py:1059 | `s.startswith(p)` holds exactly when p is no longer than s and agrees with s character by character from the start |
| `Texte.EndsWith` | app.py:1059 | `s.endswith(p)` holds only when p is no longer than s |
| `Texte.EndsWithChars` | app.py:1059 | `s.endswith(p)` holds exactly when p is no longer than s and agrees with the last characters of s |
| `Texte.Lower` | app.py:1059 | `s.lower()` keeps the length, turns each letter A-Z into its lower-case letter, keeps every other character, and leaves no letter A-Z |
| `Texte.LowerIdempotent` | app.py:1059 | lower-casing an already lower-cased string changes nothing |
| `Texte.Contains` | app.py:1160 | the substring test is true exactly when the needle occurs at some position of the text |
| `Texte.ContainsFrom` | app.py:1160 | the left-to-right search from a start position is true exactly when the needle occurs at or after that position |
| `Formulaire.DensiteDeZone` | app.py:1160 | the density is "forte" exactly when the label contains "forte", and "faible" otherwise; the result is always a density the margin table knows |
| `Formulaire.ZoneOptionsDensites` | app.py:1154-1160 | the urban option of the select box maps to "forte" and the rural option to "faible", so the two options give different densities |
| `Formulaire.AgeChampMatchesTable` | app.py:1148-1152 | the age field's bounds 65..94 admit exactly the ages the table prices |
| `Formulaire.FormAlwaysPriced` | app.py:1148-1167 | for any age the field admits and any zone label, the calculator call of the form succeeds |
| `Video.LexLess` | app.py:1058 | `a < b` on strings holds exactly when, after a common prefix, a ends while b goes on, or a's next character has the smaller code point |
| `Video.LexLessIrreflexive` | app.py:1058 | no string sorts before itself |
| `Video.LexLessTransitive` | app.py:1058 | the string order used by `sorted` is transitive |
| `Video.LexLessTotal` | app.py:1058 | of two different strings, one sorts before the other |
| `Video.LexLessAsymmetric` | app.py:1058 | two strings never sort before each other |
| `Video.Insert` | app.py:1058 | inserting a name into a sorted list keeps it sorted and adds exactly that name |
| `Video.SortNames` | app.py:1058 | `sorted(names)` is sorted and is a permutation of the names |
| `Video.IsVideoName` | app.py:1059 | a qualifying name has at least four characters and does not start with "." |
| `Video.IsVideoNameChars` | app.py:1059 | a name qualifies exactly when it has at least four characters, its first is not ".", and its last four are ".", then "m", "p", "4" or "m", "o", "v" after lower-casing the letters |
| `Video.FirstVideo` | app.py:1059-1061 | the scan returns none exactly when no name qualifies; otherwise it returns a qualifying name of the list |
| `Video.FirstVideoIndex` | app.py:1059-1060 | the name the scan returns sits at an index before which no name qualifies, so it is the first qualifying name |
| `Video.SortedScanIsLeast` | app.py:1058-1061 | scanning the sorted listing gives none exactly when no name qualifies; otherwise it gives a qualifying name of the listing that no qualifying name sorts before |
| `Video.PickVideo` | app.py:1058-1061 | the chosen name is none exactly when no listed name ends in .mp4/.mov in any case and does not start with "."; otherwise it is such a name and is least among them in string order |
| `Video.PickVideoUnique` | app.py:1058-1061 | any qualifying listed name that no qualifying name sorts before is the one chosen, whatever sorting method produced the order |
| `Video.Join` | app.py:1060 | a name starting with "/" is the whole path; otherwise the path starts with the folder, ends with the name, and between them holds exactly one "/" when the folder is non-empty and does not end with "/", and nothing otherwise |
| `Video.FindVideo` | app.py:1055-1061 | a path comes back exactly when the folder is a directory and some listed name qualifies; the path is the folder joined with the picked name |
| `Video.PickVideoExample` | app.py:1058-1061 | from ".hidden.mp4", "intro.mov", "Pub.MP4" and "notes.txt" the pick is "Pub.MP4": the upper-case extension qualifies, the hidden file does not, and "P" sorts before "i" |
| `Video.DefaultFolderPath` | app.py:1055-1060 | for the default folder, and a listing whose names hold no "/", the path is "assets/" followed by the picked name |
| `Temoignages.Repeat` | app.py:1237 | `s * n` has length n times the length of s for n > 0 and is empty for n <= 0 |
| `Temoignages.RepeatBlock` | app.py:1237 | copy k of `s * n` sits at offset k times the length of s |
| `Temoignages.StarBlocks` | app.py:1237 | in the concatenation of filled and empty repetitions, each 7-character block is the entity of its part |
| `Temoignages.StarsFull` | app.py:1237 | the star line has max(stars, 0) filled-star entities followed by max(5 − stars, 0) empty-star entities, and nothing else |
| `Temoignages.FiveStarsInRange` | app.py:1237 | for a rating from 0 to 5 the line holds exactly five entities, and entity i is the filled star exactly when i < stars |

## Left out

- Page rendering: the Streamlit layout, CSS, buttons, balloons, info and
  error boxes, expanders and the result card (app.py:48-820 and the
  rendering around the calculator). None of it holds logic.
- The easter-egg dialog and its session flag (app.py:1312-1373): this is UI
  session state.
- `get_logo_b64` (app.py:826-830): it reads a file and base64-encodes it, so
  it is I/O only.
- `FindVideo`: `os.path.isdir` and `os.listdir` are I/O. Their results are
  the `listing` parameter, with `None` for a path that is not a directory.
- `FindVideo`: on POSIX, `os.listdir` can return names holding lone
  surrogate code points (bytes not valid in the file-system encoding). A
  Dafny `char` cannot hold these, so such listings are outside the model.
- `Join`: models POSIX `os.path.join` only; Windows drive and separator rules
  are not modelled.
- `Texte.Lower`: models ASCII case folding only, where Python's `str.lower`
  folds all of Unicode. No other character lowers to one of ".mp4"/".mov",
  so the video test is unaffected.
- `SortNames`: it is an insertion sort. Python's `sorted` is a different
  algorithm, but for strings under a total order the sorted result is the
  same. `PickVideoUnique` shows that the pick does not depend on the method.
- Floating point: the source computes in IEEE-754 doubles and formats the
  amounts with two decimals (app.py:1172-1180). The model computes on exact
  decimals and leaves the display rounding out.
- The first-name gate `nom.strip()` (app.py:1166): the form computes a quote
  only for a non-blank first name. This is input validation, not part of the
  premium.
- Purity and determinism of the calculator hold by construction, because
  Dafny functions are pure. No member states them.
