# Plan discovery and cost factors of the historical-values illustration app

The app (`app.py`) builds investment illustrations from CSV files of historical values in its
working directory. This project models the part of it that decides *which* plans exist:

- **The CSV filter** (`app.py:62-63`). Of the directory listing, only names ending in `.csv` are kept, in listing order.
- **Regular ("MSS") plans** (`app.py:69-77`). For each term `i` of 5..20 years, the first CSV
  name containing `"MSS"` and the decimal text of `i` becomes the plan `"MSS - {i} Años"` with
  `(filename, i)`. For a one-digit term, a name that also contains `"1"` followed by that digit
  is skipped with `continue`, so the 15-year file is not taken as the 5-year one. `break` stops at the first match.
- **The lump-sum ("MIS") plan** (`app.py:80-83`). The first CSV name that, lower-cased, contains
  `"nico"` or `"unique"` becomes `"MIS - Aporte Unico"` with `(filename, 0)`.
- **The empty check** (`app.py:85-87`). When no plan was found, the app reports an error and stops.
- **The plan selector** (`app.py:89-90`). It offers `list(planes.keys())` and looks the choice up in `planes`.
- **`FACTORES_COSTOS`** (`app.py:36-53`). This is the table of the two cost factors of a regular plan, keyed by its term.

Modules:

- `Results` (`results.dfy`) holds `Option` and `Result`.
- `Text` (`text.dfy`) models the string operations the rule uses:
  - Python's substring `in`;
  - `endswith`;
  - `lower`;
  - `str` of a non-negative integer.
- `CostFactors` (`cost_factors.dfy`) holds the table, with the factors as exact reals.
- `PlanDiscovery` (`plan_discovery.dfy`) holds the rest.

`PlanDiscovery` states the rule twice:
- **Declaratively.** `Discovered(csv)` lists, for each term in ascending order, the item built
  from the first CSV name that passes the term's test (`MatchesTerm`), followed by the lump-sum
  item built from the first name that passes `IsMisName`.
- **Imperatively.** `DiscoverPlans` runs the source's loops over an insertion-ordered dict
  `PlanDict`, whose `Set` is Python's `planes[key] = value`. It is proved to build exactly
  `Discovered(CsvFiles(listing))`, or to fail with `NoPlanFiles` exactly when that is empty.
  The inner loop of the regular plans, with its `continue` and `break`, is the method
  `FindTermFile`. It returns the index the source breaks on, and `AddRegularPlans` performs the
  assignment that the source makes just before that `break`.

The lemmas then prove the properties the app relies on:
- first match wins;
- the skip rule;
- when a term or the lump-sum plan is present (both directions);
- the order of the selector's options;
- labels never collide;
- every regular term has cost factors and the lump-sum term has none;
- the factors grow with the term.

## Model

| member | source | states |
|---|---|---|
| PlanDiscovery.CsvFiles | app.py:63 | a name is kept exactly when it was listed and ends in `.csv`; the result is no longer than the listing |
| PlanDiscovery.CsvFilesAppend | app.py:63 | the filter keeps listing order: filtering a concatenation concatenates the filtered parts |
| PlanDiscovery.CsvFilesSingle | app.py:63 | a single name is kept exactly when it ends in `.csv` |
| PlanDiscovery.MssLabel | app.py:76 | the label of term `i` is `MSS - {str(i)} Años` |
| PlanDiscovery.MatchesTerm | app.py:74-75 | a name passes term `i` exactly when it contains "MSS" and `str(i)` and, for `i < 10`, does not contain "1" + `str(i)` (such a name is skipped by `continue`) |
| PlanDiscovery.IsMisName | app.py:81 | a name passes the lump-sum test exactly when its lower-cased form contains "nico" or "unique" |
| PlanDiscovery.FirstWhere | app.py:73-83 | the `for ... break` search: the index of the first name that passes the test, or none; an index it returns is within the list |
| PlanDiscovery.FirstWhereIsFirst | app.py:73-83 | the `for ... break` search returns the first index whose name passes the test, and returns nothing exactly when no name passes |
| PlanDiscovery.TermEntries | app.py:73-77 | a term yields at most one item, labelled `MSS - {i} Años` with term `i` |
| PlanDiscovery.MisEntries | app.py:80-83 | there is at most one lump-sum item, labelled `MIS - Aporte Unico` with term 0 |
| PlanDiscovery.MssEntries | app.py:72-77 | the declarative regular rule: for each term from 5 up to `n - 1` in ascending order, the item of that term, if any |
| PlanDiscovery.Discovered | app.py:72-83 | the declarative rule: the regular items, then the lump-sum item; `DiscoverPlans` is proved to build exactly this list |
| PlanDiscovery.PlanDict.Keys | app.py:89 | `list(planes.keys())` lists the item labels in item order, which is insertion order by the key clauses of `Set` |
| PlanDiscovery.PlanDict.Set | app.py:76 | dict assignment: a new key is appended, so `keys()` gains it last; an existing key keeps its position and takes the new value, so `keys()` is unchanged; nothing else changes |
| PlanDiscovery.PlanDict.Get | app.py:90 | a lookup fails exactly when the key is absent; otherwise it returns the value of an item with that key |
| PlanDiscovery.DiscoverPlans | app.py:62-87 | the loops build exactly the declarative item list, and fail with `NoPlanFiles` exactly when it is empty |
| PlanDiscovery.AddRegularPlans | app.py:69-77 | starting from `{}`, the loop over terms 5..20 leaves exactly the regular items of every term, in ascending term order |
| PlanDiscovery.FindTermFile | app.py:73-77 | the inner loop breaks on the first name that passes the term's test, counting the skip rule; when it runs out, no name passes |
| PlanDiscovery.AddLumpSumPlan | app.py:80-83 | the dict is unchanged when no name passes the MIS test; otherwise it is assigned the plan of the first such name |
| PlanDiscovery.TermFound | app.py:74-77 | the first name taken for a term appends that term's item to the items of the earlier terms |
| PlanDiscovery.TermMissing | app.py:73-77 | a term that no name passes adds nothing |
| PlanDiscovery.NewTermLabel | app.py:76 | when term `i` is assigned, its label is not yet a key, so it is appended and not overwritten |
| PlanDiscovery.NewMisLabel | app.py:82 | after the regular plans, the lump-sum label is not yet a key |
| PlanDiscovery.MssLabelInjective | app.py:76 | different terms get different labels |
| PlanDiscovery.MisLabelIsNotMss | app.py:76-82 | the lump-sum label is not the label of any regular term |
| PlanDiscovery.FirstTermNameTaken | app.py:73-77 | the item of a term is built from the first name that passes its test |
| PlanDiscovery.FirstMisNameTaken | app.py:80-83 | the lump-sum item is built from the first name that passes the MIS test |
| PlanDiscovery.NoTermName | app.py:72-77 | a term has no item exactly when no CSV name passes its test |
| PlanDiscovery.NoMisName | app.py:80-83 | there is no lump-sum item exactly when no CSV name passes the MIS test |
| PlanDiscovery.MssEntriesFacts | app.py:72-77 | each regular item has a term in range and is that term's item; terms strictly ascend |
| PlanDiscovery.TermEntryChosen | app.py:73-77 | a term's item comes from the first CSV name that passes the term's test |
| PlanDiscovery.MisEntryChosen | app.py:80-83 | the lump-sum item comes from the first CSV name that passes the MIS test |
| PlanDiscovery.TermEntriesIncluded | app.py:72-77 | a term's item is among the items of every later stage of the term loop |
| PlanDiscovery.RegularItems | app.py:72-76 | every regular item has a term in 5..20 and the label `MSS - {term} Años`; its file is a CSV name containing "MSS" and the term's digits; for a one-digit term the file does not contain "1" followed by the digit |
| PlanDiscovery.FirstMatchWins | app.py:73-77 | the first CSV name that passes a term's test is that term's item, whatever later names pass |
| PlanDiscovery.TermPresence | app.py:72-77 | a term 5..20 has an item exactly when some CSV name passes its test |
| PlanDiscovery.LumpSumItem | app.py:80-83 | a lump-sum item exists exactly when some CSV name, lower-cased, contains "nico" or "unique"; it is the last item, has term 0 and the first such name |
| PlanDiscovery.DiscoveredOrder | app.py:72-83 | the selector's order: regular terms ascending, then the lump-sum item |
| PlanDiscovery.DistinctLabels | app.py:76-82 | no two items share a label, so no assignment overwrites an earlier plan |
| PlanDiscovery.NothingFound | app.py:85-87 | the app stops with its error exactly when no CSV name passes any term's test or the MIS test |
| PlanDiscovery.SelectedPlan | app.py:89-90 | the option at position `k` of the selector looks up exactly the plan of the `k`-th item |
| PlanDiscovery.TermsHaveCostFactors | app.py:36-53 | an item is regular exactly when its term is a key of `FACTORES_COSTOS` |
| PlanDiscovery.SkipRuleExample | app.py:75 | `MSS 15.csv` fails the 5-year test and passes the 15-year test |
| PlanDiscovery.OwnTermExample | app.py:74-75 | `MSS 5.csv` passes the 5-year test |
| PlanDiscovery.YearInNameExample | app.py:74-75 | `MSS 5 2015.csv` is never the 5-year plan ("2015" holds "15") but passes the 15- and 20-year tests |
| PlanDiscovery.CaseExample | app.py:74-81 | the "MSS" test is case-sensitive (`mss 5.csv` fails it); the MIS test is not (`UNICO.csv` passes it) |
| Text.Contains | app.py:74-81 | Python's `sub in s`: `sub` occurs at some position of `s` |
| Text.EndsWith | app.py:63 | `s.endswith(suffix)`: the last `len(suffix)` characters of `s` are `suffix` |
| Text.LowerChar | app.py:81 | ASCII `A`-`Z` move to `a`-`z`; every other character is kept; the result is never an upper-case ASCII letter |
| Text.Lower | app.py:81 | `lower()` keeps the length and lowers each character |
| Text.DecimalText | app.py:74 | `str(i)` is non-empty and made of digits; it is one character long exactly when `i < 10`; its last digit is `i % 10` |
| Text.DecimalTextInjective | app.py:74-76 | different numbers have different decimal texts |
| Text.ContainsHasFirstChar | app.py:74-81 | a substring found by `in` starts with a character of the string |
| Text.ContainsAt | app.py:74-81 | an occurrence at a given position makes `in` true |
| CostFactors.Table | app.py:36-53 | `FACTORES_COSTOS`: the sixteen `(factor1, factor2)` pairs for the terms 5..20, as exact decimals |
| CostFactors.Lookup | app.py:36-53 | a term has factors exactly when it is in 5..20; then factor 1 is 0.0495 times the term and 0 < factor 2 < factor 1 |
| CostFactors.TableKeys | app.py:36-53 | the table's keys are exactly the terms 5..20; the lump-sum term 0 is not a key |
| CostFactors.SecondIsRoundedQuarter | app.py:36-53 | factor 2 is within 0.00005 of factor 1 / 4 |
| CostFactors.FactorsIncrease | app.py:36-53 | both factors strictly increase with the term |

## Left out

- The Streamlit interface is not modelled: page setup, titles, sidebar widgets, the inputs below line 90, and the number and month ranges. It is presentation only. The selector is modelled only through the values it passes on (`SelectedPlan`).
- The password gate `check_password` (`app.py:15-31`) is not modelled. It is session-state glue around a fixed string comparison.
- `os.listdir()` is I/O. The listing is the input sequence of names of `DiscoverPlans`.
- `st.error` plus `st.stop()` becomes the `Failure(NoPlanFiles)` result instead of halting the script.
- The matplotlib and `io` imports are not modelled. They serve rendering and export. `traceback` (app.py:9) is not modelled.
- The monthly simulation, fees, surrender values and yearly aggregation are not modelled.
- Text.Lower: lowers ASCII letters only, where Python's `str.lower()` lowers every Unicode letter. For the lump-sum test this makes no difference. The only non-ASCII characters that Python lowers onto ASCII letters are U+0130 (to "i" plus a combining dot) and U+212A (to "k"). Neither can complete "nico" or "unique", so `IsMisName` gives the same answer as line 81 on every name.
- Text.Contains: strings are sequences of characters. No Unicode normalisation is modelled, so "Años" is one fixed character sequence.
- PlanDiscovery.PlanDict: the Python dict is modelled as its list of items in insertion order. That is what `keys()` and the selector expose, and the model does not rely on hashing.
- PlanDiscovery.FindTermFile: the assignment `planes[...] = (filename, i)`, made just before `break`, is made by the caller right after the search returns. Nothing happens between the two in the source, so the resulting dict is the same.
