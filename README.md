# Loan eligibility feature encoder

This project models the logic in the loan-eligibility web form's request handler, `predict_loan`. The form collects eleven raw values: four two-option dropdowns, the number of dependents, three amounts, the loan term, the credit history and the property area. The encoder turns them into the thirteen-field numeric row the pre-trained classifier was trained on. That row holds the categorical codes, the three amounts unchanged, the loan term as a real, `TotalIncome` (applicant plus co-applicant income) and `Debt_Income_Ratio` (loan amount over total income, or 0 when total income is 0). The classifier's label is then turned into an approval or rejection message.

Modules:

- `Wrappers` (`wrappers.dfy`): the `Result` type used for the error path.
- `Strings` (`strings.dfy`): the two Python string operations the encoder needs. These are `int(s)` on a decimal numeral (`IsNumeral`, `ValueOf`) and the substring test `pat in s` (`Contains`). Each has a partner: the rendering `ShowNat` as the inverse of `ValueOf`, and the occurrence predicate `OccursAt` for `Contains`.
- `LoanApp` (`loan_app.dfy`): the raw submission `RawApplication`, the row `FeatureRecord` and the error `EncodingError`. It has one function per column rule and the encoder `Encode`. `Conforms` states the column table as a relation between submission and row. `Message` selects the message and `PredictLoan` composes the whole handler. It also has lemmas about the dropdown values and the form's default submission.

Modelling decisions:

- The classifier is a parameter `predict: FeatureRecord -> int` of `PredictLoan`. Its result is compared with 1 exactly as the handler does.
- Amounts are `real`. The loan term is an `int` and is converted to `real` for `Loan_Amount_Term`. Python's `float()` and `/` are taken as exact over the reals.
- Being a function, `Encode` is deterministic. Encoding the same submission twice gives the same row by construction.
- The `int(dependents)` failure happens before the handler's `try` block, so it is not turned into an `Error: ...` message. `PredictLoan` returns it as a `Failure` instead.
- The encoder does not check that amounts are non-negative, so no contract requires it. `RatioNonNegative` states what follows when they are non-negative.
- Python's `int()` accepts leading zeros, so `"01"` encodes to 1, the same as `"1"` (`LeadingZeroIgnored`). Injectivity therefore holds for canonical numerals (`CanonicalInjective`) and over the dropdown (`DependentsDropdown`), not for all strings.
- `"Good" in credit_history` is a substring test. Any text containing `Good` gives 1.0, not only the dropdown's `"Good (1.0)"`.

## Model

| member | source | states |
|---|---|---|
| `Strings.ValueOf` | app.py:28 | the value `int()` reads from a digit string is below 10 to the power of its length |
| `Strings.ShowNat` | app.py:28 | the decimal rendering of a number is a canonical numeral, with a non-zero first digit for a positive number |
| `Strings.ValueOfShowNat` | app.py:28 | reading the rendering of any number gives that number back |
| `Strings.ShowNatValueOf` | app.py:28 | rendering the value of any canonical numeral gives the numeral back |
| `Strings.LeadingZeroIgnored` | app.py:28 | a leading zero does not change the value `int()` reads |
| `Strings.CanonicalInjective` | app.py:28 | distinct canonical numerals have distinct values |
| `Strings.Contains` | app.py:35 | the substring test `pat in s` succeeds exactly when the pattern occurs at some index of the text |
| `Strings.OccursAfterFirst` | app.py:35 | past a non-match at the first index, an occurrence in the text is an occurrence in the text without its first character |
| `LoanApp.GenderCode` | app.py:26 | Gender is 0 or 1, and 1 exactly for "Male" |
| `LoanApp.YesNoCode` | app.py:27-30 | Married and Self_Employed are 0 or 1, and 1 exactly for "Yes" |
| `LoanApp.EducationCode` | app.py:29 | Education is 0 or 1, and 0 exactly for "Graduate" |
| `LoanApp.DependentsCode` | app.py:28 | succeeds exactly for "3+" or a numeral; "3+" gives 3; any other numeral gives its decimal value (so "01" gives 1), and a canonical numeral gives the number it renders; any other text fails with that text |
| `LoanApp.CreditHistoryCode` | app.py:35 | Credit_History is 0.0 or 1.0, and 1.0 exactly when "Good" occurs in the text |
| `LoanApp.PropertyAreaCode` | app.py:36 | Property_Area is in 0..2, 2 exactly for "Urban", 1 exactly for "Semiurban" |
| `LoanApp.DebtIncomeRatio` | app.py:17-20 | the ratio is 0 when total income is 0, and otherwise times total income equals the loan amount |
| `LoanApp.Encode` | app.py:15-39 | fails exactly when Dependents is neither "3+" nor a numeral, with that text; otherwise the row conforms to the column table (codes, pass-through amounts, term as real, total income as the sum, ratio) |
| `LoanApp.ConformingIsEncoded` | app.py:25-39 | any row that conforms to the column table for a submission is exactly the row `Encode` returns, so the table fixes every field |
| `LoanApp.Message` | app.py:49 | the message is one of the two texts, and the approval text exactly when the prediction is 1 |
| `LoanApp.PredictLoan` | app.py:11-50 | fails exactly on the Dependents error, which is not caught; otherwise answers approve exactly when the classifier gives 1 on the conforming row |
| `LoanApp.DependentsDropdown` | app.py:59 | the dropdown options "0", "1", "2", "3+" encode to 0, 1, 2, 3: total and injective on the dropdown |
| `LoanApp.PropertyAreaDropdown` | app.py:67 | "Urban", "Semiurban", "Rural" encode to 2, 1, 0 |
| `LoanApp.CreditHistoryDropdown` | app.py:66 | "Good (1.0)" encodes to 1.0 and "Bad (0.0)" to 0.0 |
| `LoanApp.BinaryDropdowns` | app.py:57-61 | the two options of the Gender, Married, Self Employed and Education dropdowns get distinct codes, as the column rules say |
| `LoanApp.EncodeTotalOnDropdown` | app.py:59 | a submission whose Dependents comes from the dropdown always encodes |
| `LoanApp.RatioNonNegative` | app.py:16-20 | with non-negative amounts, total income and ratio are non-negative |
| `LoanApp.DefaultApplication` | app.py:62-65 | the form's default amounts (5000, 0, 100, term 360) with a male married graduate, urban, good credit give the row with total income 5000 and ratio 0.02 |
| `LoanApp.NoIncomeApplication` | app.py:17-18 | with no applicant or co-applicant income, total income and ratio are 0 |

## Left out

- Loading the classifier from `loan_model.pkl` (app.py:8): file I/O of an opaque artifact.
- The classifier's inference (app.py:46): foreign code, modelled as the parameter `predict`.
- Building the pandas DataFrame (app.py:42): a library wrapper; the row is the fixed-field `FeatureRecord`.
- The `try/except` that formats `Error: ...` from an inference exception (app.py:45, app.py:52-53): the text comes from foreign exception messages.
- The Gradio inputs, interface and launch (app.py:56-79): UI and serving. Only the dropdown option lists are kept, as constants for the domain lemmas.
- Missing form values: a cleared number field or an unselected dropdown passes `None`; the model takes every value as present. In Python a `None` Dependents raises in `int()` (app.py:28), a `None` income raises in the sum (app.py:16), a `None` loan term in `float()` (app.py:34) and a `None` credit history in `in` (app.py:35). A `None` loan amount raises in the division only when total income is non-zero (app.py:20); otherwise it reaches the row. A `None` Gender, Married, Education, Self Employed or Property Area raises nothing and encodes as non-matching text: 0, 0, 1, 0 and 0.
- `Strings.ValueOf`: models `int()` only on plain ASCII digit strings. Python also accepts surrounding whitespace, a sign, underscores and non-ASCII digits; such texts are an encoding error here.
- IEEE floating point in `loan_amount / total_income` and `float(loan_term)` (app.py:20, app.py:34): modelled over exact reals, so rounding is not captured.
- The second front end, a sidebar form with a different column set, is not part of this model.
