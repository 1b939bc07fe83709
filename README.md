# Statin recommendation: a Dafny model

This project models the decision logic of the statin recommendation service
(`get_statin_recommendation` in `statin_logic.py`). Four clinical readings go in:
creatine kinase (CK, U/L), transaminase (ALT/AST, U/L), total bilirubin (mg/dL)
and whether muscle symptoms are present. One free-text recommendation comes out.
It is built from two independent threshold tables:

- **CK and myopathy.** Three bands derived from `ULN_CK = 200`: above 10x ULN
  (2000), above 3x ULN (600) up to 2000, and 600 or below. In the lowest band
  the symptom flag picks one of two paragraphs.
- **Liver function.** Three bands derived from `ULN_ALT = 40`: 40 or below,
  above 40 up to 3x ULN (120), and above 120. In the middle band bilirubin is
  compared with `BILIRUBIN_THRESHOLD = 2.0`.

The CK paragraph (ending in a blank line) comes first and the liver paragraph
(ending in one newline) second. The whole text is then passed through Python's
`str.strip()`.

Files:

- `py_str.dfy` (module `PyStr`): Python's `str.strip()` with no argument, over
  the characters `str.isspace()` accepts. `TrimStart` and `TrimEnd` are each
  fully characterised by their contracts: what remains is a suffix or prefix,
  everything removed is whitespace, and the remainder does not begin or end
  with whitespace.
- `statin_logic.dfy` (module `StatinLogic`): the constants and the eight
  paragraphs. `CkSection` and `LiverSection` mirror the two if/elif chains
  branch for branch, including the CK chain's final fall-through, which
  appends nothing. `Recommendation` is the pure specification of the whole
  function. `GetStatinRecommendation` is the function as written: it builds a
  local accumulator with `+=` in two sequential chains and returns it
  stripped. It is proved equal to `Recommendation`.

The readings are Python floats that the code only compares with constants.
They are modelled as mathematical `real`s, so they are always finite and never
NaN. Each paragraph is written as its heading (`"CK: "` or `"Liver: "`), the
advice, and the ending (`".\n\n"` or `".\n"`). Joined together, these are the
exact strings of the source.

The thresholds are fixed constants in the code, and the output is free text
chosen by threshold band. Several bands include their upper bound: CK 600 and
2000, transaminase 40 and 120, and bilirubin 2.0 each fall in the lower of the
two bands they separate.

## Model

| member | source | states |
|---|---|---|
| `PyStr.IsSpace` | statin_logic.py:50 | The whitespace set of `str.isspace()` that `strip()` removes; no visible ASCII character (letter, digit, punctuation) belongs to it |
| `PyStr.TrimStart` | statin_logic.py:50 | Leading strip: the result is a suffix of the input, every removed character is whitespace, and the result is empty or starts with a non-whitespace character |
| `PyStr.TrimEnd` | statin_logic.py:50 | Trailing strip: the result is a prefix of the input, every removed character is whitespace, and the result is empty or ends with a non-whitespace character |
| `PyStr.Strip` | statin_logic.py:50 | `strip()` returns a contiguous slice of its input, everything cut off on either side is whitespace, and a non-empty result has no whitespace at either end |
| `PyStr.StripDropsLastOnly` | statin_logic.py:50 | A text that starts with non-whitespace and ends in exactly one whitespace character loses only that last character when stripped |
| `StatinLogic.CkSection` | statin_logic.py:20-35 | The CK chain always yields a CK paragraph: it starts with "CK:" and ends with a full stop and a blank line, so the empty fall-through is never taken |
| `StatinLogic.LiverSection` | statin_logic.py:37-48 | The liver chain always yields a liver paragraph: it starts with "Liver:" and ends with a full stop and one newline |
| `StatinLogic.HighCkIgnoresSymptoms` | statin_logic.py:21-22 | CK above 2000 gives "Withdraw statin, hydrate, and monitor renal function" whether symptoms are present or not, so the symptom disjunct of the guard adds nothing |
| `StatinLogic.MiddleCkIgnoresSymptoms` | statin_logic.py:23-24 | CK in (600, 2000] gives "Withdraw statin. Consider nonstatin-related causes…" whether symptoms are present or not |
| `StatinLogic.LowCkFollowsSymptoms` | statin_logic.py:25-35 | CK at or below 600 gives the withdraw-and-reinitiation guidance with symptoms and "Continue statin. Follow up CK in 2–4 weeks…" without |
| `StatinLogic.CkMessagesDistinct` | statin_logic.py:22-35 | The four CK paragraphs are pairwise different |
| `StatinLogic.CkSectionCases` | statin_logic.py:21-35 | Totality and exclusivity of the CK table: the result is always one of the four CK paragraphs, and each paragraph appears if and only if its band (and, in the lowest band, its symptom value) holds |
| `StatinLogic.CkBoundaries` | statin_logic.py:21-25 | CK exactly 2000 is in the middle band; CK exactly 600 is in the lowest band (continue without symptoms, reinitiation guidance with them) |
| `StatinLogic.NormalTransaminaseStarts` | statin_logic.py:38-39 | Transaminase at or below 40 gives "Start statin…" whatever the bilirubin |
| `StatinLogic.MiddleTransaminaseFollowsBilirubin` | statin_logic.py:40-46 | Transaminase in (40, 120] gives "Consider starting statin…" when bilirubin is at most 2.0 and "Do not start statin. Bilirubin > 2 mg/dL…" otherwise |
| `StatinLogic.HighTransaminaseStops` | statin_logic.py:47-48 | Transaminase above 120 gives "Do not start statin. Transaminase > 3× ULN…" whatever the bilirubin |
| `StatinLogic.LiverMessagesDistinct` | statin_logic.py:39-48 | The four liver paragraphs are pairwise different |
| `StatinLogic.LiverSectionCases` | statin_logic.py:38-48 | Totality and exclusivity of the liver table: the result is always one of the four liver paragraphs, each if and only if its band and bilirubin condition hold |
| `StatinLogic.LiverBoundaries` | statin_logic.py:38-41 | Transaminase exactly 40 starts the statin; exactly 120 is not the top band; bilirubin exactly 2.0 at transaminase 120 still gives "Consider starting statin" |
| `StatinLogic.BilirubinOnlyInMiddleBand` | statin_logic.py:38-48 | Outside (40, 120], two bilirubin values always give the same liver paragraph |
| `StatinLogic.StripJoinedParagraphs` | statin_logic.py:18-50 | Stripping a CK paragraph followed by a liver paragraph removes only the final newline; the text starts with "CK:" and ends with a full stop |
| `StatinLogic.Recommendation` | statin_logic.py:18-50 | The returned text is the CK paragraph, blank line included, followed by the liver paragraph without its final newline; it starts with "CK:" and has no trailing whitespace |
| `StatinLogic.BilirubinIgnoredOutsideMiddleBand` | statin_logic.py:38-50 | Outside (40, 120], changing bilirubin never changes the returned text |
| `StatinLogic.CkPartIgnoresLiverReadings` | statin_logic.py:20-50 | The leading CK part of the text depends only on CK and symptoms: it is the same for any liver readings |
| `StatinLogic.LiverPartIgnoresCkReadings` | statin_logic.py:20-50 | The liver part of the text depends only on transaminase and bilirubin: it is the same for any CK value and symptom flag |
| `StatinLogic.GetStatinRecommendation` | statin_logic.py:5-50 | The accumulator-building function returns exactly `Recommendation` of its inputs, a text starting with "CK:" and ending with a full stop |

## Left out

- `app.py`: the FastAPI application, CORS middleware, request/response models,
  the route handlers, and the mapping of `ValueError`/`TypeError` to HTTP 400
  and other exceptions to HTTP 500. This is framework glue around the function.
- `models.py`: the SQLAlchemy tables and Werkzeug password hashing. This is
  persistence and a foreign cryptographic library, with no decision logic.
- IEEE-754 behaviour of the readings. NaN makes every CK guard false, so no CK
  paragraph is emitted and the text starts with "Liver:". A NaN transaminase
  falls into the top liver band. Infinities are also possible. The model's
  readings are finite non-NaN reals, so it does not capture these cases.
- Dynamic typing: Python accepts readings of other types (an int, or a value
  whose comparison raises `TypeError`). The model takes `real` and `bool`.
- `load_dotenv` and environment handling in `app.py`: process configuration,
  not logic.
