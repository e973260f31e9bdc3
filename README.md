# spaxelsleuth core in Dafny

This project models the analysis core of spaxelsleuth. spaxelsleuth builds tables of
emission-line measurements for the SAMI galaxy survey. Each table row is a spaxel
(a spatial pixel), a Voronoi or sector bin, or an aperture. The modelled parts:

- **Line ratios and classification** (`spaxelsleuth/utils/linefns.py`):
  - `ratio_fn`: each rule adds a log line ratio, or combines and splits a doublet, when its input columns are present and its output is missing.
  - The demarcation curves of Kewley et al. (2001, 2006), Kauffmann et al. (2003) and Law et al. (2021).
  - `bpt_fn` and `law2021_fn`: the BPT and Law 2021 classifiers.
  - `bpt_num_to_str`.
  - The star-formation-rate columns (`compute_SFR`, `compute_SFR_surface_density`).
- **Metallicity and ionisation parameter** (`utils/metallicity.py`):
  - The line list.
  - The closed-form calibrations.
  - The K19 and KK04 iterative solvers, including their stopping rules.
  - `_get_metallicity` and `calculate_metallicity`, including their suffix handling and error checks.
- **SAMI post-processing** (`loaddata/sami.py` and `spaxelsleuth/io/sami.py`):
  - Equivalent widths and line totals with their S/N.
  - The effective-radius columns.
  - The SFR drop and rename, and the component-1 share.
  - The aperture S/N, low-signal and missing-value flags, and the sigma_gas masks.
  - The data-quality filter and the first-best de-duplication of the catalogue.
  - The morphology recode; the MGE selection; the redshift columns.
  - The bin labels and bin centroids; the all-NaN row filter.
- **Configuration** (`spaxelsleuth/config.py`):
  - Loading a user JSON configuration over the defaults, recursively one level.
  - Python's semantics for iterating strings, lists and objects.
  - `configure_logger`.

## Modelling choices

**Cells.** A table cell is `Numeric.Num`: NaN, a real value, or one of the two
infinities. Comparisons follow numpy: every comparison with NaN is false. Arithmetic
follows IEEE on the extended reals, without rounding. `log10` and `sqrt` are function
parameters. They are uninterpreted on positive reals; `Numeric.Log10` and `Numeric.Sqrt`
handle zero, negative values, NaN and infinity.

**Tables.** A DataFrame is `Table.Frame`, a class whose snapshot `Table.Snapshot` has:
- numeric columns;
- text columns;
- flag columns;
- a row count.

Each DataFrame-changing routine is a method. Its `ensures` ties the new snapshot to a
specification function of the old one, and lemmas state what that function promises.

**Corrected specifications.** Five defects are listed under "## Findings". Wherever the
source has one of them, the top-level specification is the corrected program, not the
program as written:
- `Classify.BptSpec` and `Classify.LawSpec` test column presence with a real `all`.
- `Metallicity.K19Estimate` reads the ionisation ratio through `Metallicity.IonColumn`, which has the S32 typo fixed.
- `MetFrame.CalculateWith` uses `MetFrame.SuffixText`, which maps `s=None` to no suffix.
- `SamiCatalogue.MorphologySpec` and `SamiCatalogue.MergeMorphologies` recode NaN morphologies.
- `SamiApertures.ApStep` (and with it `SamiApertures.MasksNeverFail`) uses the sigma_gas mask without the unbound `nn` column list.

The as-written behaviour of each is modelled beside it and named in the Findings table.
Nothing else is corrected.

**Modelled as written.** These behaviours of the source are not repaired:
- `Kewley2001`, `Kewley2006`, `Kauffman2003` and `Law2021` with `log=False` raise a NameError.
- `max_niters = 0` leaves the K19/KK04 result unbound, so the first non-NaN row raises.
- `R23_C17` and `O3O2_KK04` as the metallicity diagnostic make `_get_metallicity` return None.
- The all-NaN row filter of `process_galaxies` never drops a row (`SamiBins.NothingDropped`).

These are not under Findings: for none of them is the intended behaviour evident from the source.

## Model

| member | source | states |
|---|---|---|
| Numeric.NanSumOfFinite | loaddata/sami.py:1254-1256 | `np.nansum` over cells that are finite or NaN is the finite sum of the non-NaN cells. |
| Numeric.NanSumAllNaN | loaddata/sami.py:1254-1256 | `np.nansum` of a row whose every cell is NaN is 0, not NaN. |
| Numeric.NanSumNotNaN | loaddata/sami.py:1206-1217 | A nansum is never NaN when the row lacks +inf or lacks -inf; with no +inf (or no -inf) cell it is not +inf (or -inf). |
| Numeric.CompareNaN | spaxelsleuth/utils/linefns.py:341-372 | Any numpy comparison with a NaN operand is false; two non-NaN cells are ordered, equal or reversed; < and >= never both hold. |
| Numeric.DivByZero | loaddata/sami.py:1249-1251 | Dividing a positive flux by a zero error gives +inf, a negative one -inf, and 0/0 gives NaN. |
| Curves.ParseAxis | spaxelsleuth/utils/linefns.py:77-91 | Only "log N2", "log S2" and "log O1" name an x axis. |
| Curves.HyperbolaShape | spaxelsleuth/utils/linefns.py:83-91 | A curve a/(x-pole)+b is NaN exactly when x is NaN or beyond the pole, +inf at the pole, b at -inf, and below its asymptote b left of the pole. |
| Curves.HyperbolaDecreasing | spaxelsleuth/utils/linefns.py:83-91 | Left of the pole, each hyperbola falls as x grows. |
| Curves.Kewley2001Domain | spaxelsleuth/utils/linefns.py:83-91 | Kewley (2001) is NaN exactly beyond the axis's cutoff (0.47, 0.32, -0.59), +inf at the cutoff, and below its asymptote before it. |
| Curves.Kauffman2003Domain | spaxelsleuth/utils/linefns.py:122-125 | Kauffmann (2003) is NaN exactly for x > 0.05 and equals 0.61/(x-0.05)+1.3 left of 0.05. |
| Curves.Law2021OneSigmaDomain | spaxelsleuth/utils/linefns.py:191-200 | The 1-sigma Law (2021) line is NaN exactly beyond -0.032 (N2), 0.198 (S2) or -0.360 (O1). |
| Curves.Law2021ThreeSigmaDomain | spaxelsleuth/utils/linefns.py:229-238 | The 3-sigma Law (2021) quartic in log O3 is NaN exactly below -0.61 (N2), below -0.80 (S2) or above 0.65 (O1), and is the quartic with the source's coefficients elsewhere. |
| Curves.Kewley2006Copies | spaxelsleuth/utils/linefns.py:156-162 | The local Kewley (2006) inside bpt_fn agrees with the module one wherever that one is finite; on S2 left of -0.3143200520185163 the module one is NaN while the local one is 1.89x+0.76. |
| Curves.KauffmannBelowKewley | spaxelsleuth/utils/linefns.py:83-125 | For every log N2 below 0.05, the Kauffmann (2003) line is below the Kewley (2001) line exactly when 0.11 (0.05 - x)(0.47 - x) < 0.2562, that is for log N2 above about -1.28. |
| Curves.Kewley2001Fn | spaxelsleuth/utils/linefns.py:54-91 | With log=False the call raises NameError on `ratio_y_vals`; with log=True it succeeds exactly on a valid axis and maps Kewley2001 over the cells. |
| Curves.Kauffman2003Fn | spaxelsleuth/utils/linefns.py:94-125 | NameError with log=False; otherwise succeeds exactly on "log N2" (the assertion) and maps the curve over the cells. |
| Curves.Kewley2006Fn | spaxelsleuth/utils/linefns.py:128-162 | NameError with log=False; otherwise succeeds exactly on "log S2" or "log O1" and maps the curve over the cells. |
| Curves.Law2021OneSigmaFn | spaxelsleuth/utils/linefns.py:165-200 | NameError with log=False; otherwise succeeds exactly on a valid axis and maps the 1-sigma line over the cells. |
| Curves.Law2021ThreeSigmaFn | spaxelsleuth/utils/linefns.py:203-238 | Succeeds exactly on a valid axis; takes log10 of the input first when log=False, then maps the 3-sigma line over it. |
| Carve.FilterMembers | spaxelsleuth/utils/linefns.py:330-377 | A carved-out group holds exactly the pool rows that satisfy the stage's condition. |
| Carve.FilterPartition | spaxelsleuth/utils/linefns.py:330-377 | A stage splits the remaining pool into taken and left-over rows with no row lost or duplicated (multisets). |
| Carve.RowFilter | spaxelsleuth/utils/linefns.py:330-377 | Row selection over 0..n-1 keeps row order and yields exactly the rows below n satisfying the mask. |
| Carve.CarvingGroups | spaxelsleuth/utils/linefns.py:330-381 | Carving with k stages yields k+1 groups; group j holds the rows whose first satisfied stage is j (the last group holds the rest). |
| Carve.CarvingPermutes | spaxelsleuth/utils/linefns.py:380-381 | Concatenating the carved groups is a permutation of the original rows. |
| Carve.TagsOfGroups | spaxelsleuth/utils/linefns.py:380-381 | Tagging each group by its index, then concatenating, tags each output row with the index of its group. |
| Carve.Split | spaxelsleuth/utils/linefns.py:341-346 | The loop that removes a category from the remaining pool returns exactly the rows that pass and those that do not. |
| Carve.CarveOut | spaxelsleuth/utils/linefns.py:330-381 | The loop that carves stage by stage returns exactly the carving of the pool. |
| Classify.NumColumn | spaxelsleuth/utils/linefns.py:330-335 | Reading a column as numbers succeeds exactly when it is a numeric column; an existing non-numeric column raises TypeError, an absent one KeyError. |
| Classify.BptFirstStage | spaxelsleuth/utils/linefns.py:330-377 | The first carve-out stage a row satisfies is its BPT code + 1. |
| Classify.BptCarving | spaxelsleuth/utils/linefns.py:330-381 | bpt_fn's carving of the rows equals its five category groups (not classified, SF, composite, LINER, Seyfert, ambiguous). |
| Classify.BptOrderPermutes | spaxelsleuth/utils/linefns.py:380-381 | The rows of the classified frame are a permutation of the input rows. |
| Classify.BptTags | spaxelsleuth/utils/linefns.py:380-381 | Each output row carries the numeric BPT code of its own input row. |
| Classify.BptCodeRange | spaxelsleuth/utils/linefns.py:330-377 | The BPT code is -1 exactly when log O3, log N2 or log S2 is NaN, and always lies in -1..4. |
| Classify.BptCategoriesDisjoint | spaxelsleuth/utils/linefns.py:341-372 | No row satisfies two of the SF, composite, LINER and Seyfert conditions. |
| Classify.BptBeyondKauffmann | spaxelsleuth/utils/linefns.py:341-355 | A row with log N2 > 0.05 is never SF nor composite, since comparisons with a NaN curve are false. |
| Classify.BptAboveKewley | spaxelsleuth/utils/linefns.py:314-370 | Every finite row above both Kewley (2001) lines is a Seyfert exactly when log O3 >= 1.89 log S2 + 0.76, and a LINER otherwise, at every log S2. Below log S2 = -0.3143 the module-level Kewley (2006) line is NaN, and neither comparison holds against it. |
| Classify.BptCompositeWindow | spaxelsleuth/utils/linefns.py:347-350 | A composite row has log N2 below 0.05, where the Kauffmann line is under the Kewley line, so no row with log N2 below about -1.28 is composite. |
| Classify.BptFn | spaxelsleuth/utils/linefns.py:241-388 | The method that classifies in place leaves exactly the frame BptSpec describes. |
| Classify.LawFirstStage | spaxelsleuth/utils/linefns.py:447-497 | The first Law (2021) stage a row satisfies is its code + 1. |
| Classify.LawCarving | spaxelsleuth/utils/linefns.py:447-500 | law2021_fn's carving equals its groups (not classified, cold, intermediate, warm, ambiguous). |
| Classify.LawOrderPermutes | spaxelsleuth/utils/linefns.py:500 | The Law (2021) output rows are a permutation of the input rows. |
| Classify.LawTags | spaxelsleuth/utils/linefns.py:500 | Each output row carries the numeric Law (2021) code of its own input row. |
| Classify.LawLabelTags | spaxelsleuth/utils/linefns.py:500 | Each output row carries the text label of its own input row's code. |
| Classify.LawCodeRange | spaxelsleuth/utils/linefns.py:447-497 | The Law (2021) code is -1 exactly when a ratio is NaN and always lies in -1..3. |
| Classify.LawIntermediateNeedsO3 | spaxelsleuth/utils/linefns.py:470-480 | A row with log O3 <= -0.61 is never intermediate. |
| Classify.LawCategoriesDisjoint | spaxelsleuth/utils/linefns.py:459-488 | No row is both cold and intermediate, nor both intermediate and warm. |
| Classify.Law2021Fn | spaxelsleuth/utils/linefns.py:391-506 | The method that classifies in place leaves exactly the frame LawSpec describes. |
| Classify.BptGuardAsWritten | spaxelsleuth/utils/linefns.py:287 | As written, a frame without log O3 raises KeyError; the corrected guard gives every row code -1. |
| Classify.LawGuardAsWritten | spaxelsleuth/utils/linefns.py:442 | As written, a frame without log O3 raises KeyError; the corrected guard leaves the frame unchanged. |
| Classify.GuardsAgree | spaxelsleuth/utils/linefns.py:287 | When all three ratio columns exist, the as-written guard and the corrected one give the same outcome. |
| Classify.BptNumToStrCodes | spaxelsleuth/utils/linefns.py:11-22 | Mapping numeric codes to labels succeeds exactly when every cell is a BPT code (-1..4), and gives each cell its dictionary label. |
| Classify.CodeName | spaxelsleuth/utils/linefns.py:11-22 | A cell's text form is a key of the label dictionary exactly when the cell is a BPT code. |
| Classify.BptCodesToLabels | spaxelsleuth/utils/linefns.py:11-22 | bpt_num_to_str applied to bpt_fn's numeric column gives each row the label of its code. |
| Sfr.SfrFn | spaxelsleuth/utils/linefns.py:743-765 | The method that writes SFRs in place leaves exactly the frame SfrSpec describes. |
| Sfr.SfrOnlyStarForming | spaxelsleuth/utils/linefns.py:757-760 | SFR = 5.5e-42 x luminosity (and the same for the error) in rows whose BPT code is 0; other rows keep their previous value. |
| Sfr.SfrNeedsInputs | spaxelsleuth/utils/linefns.py:757 | Without the HALPHA luminosity or the BPT column, sfr_fn changes nothing. |
| Sfr.SfrIdempotent | spaxelsleuth/utils/linefns.py:757-760 | Running sfr_fn twice gives the same frame as running it once. |
| Sfr.SfrKeepsOthers | spaxelsleuth/utils/linefns.py:757-760 | sfr_fn changes no column other than SFR and SFR error. |
| Sfr.SfrSuffixes | spaxelsleuth/utils/linefns.py:768-773 | compute_SFR visits " (total)" and then " (component k)" for k = 1..n. |
| Sfr.ComputeSfr | spaxelsleuth/utils/linefns.py:768-773 | The method runs sfr_fn once per suffix, in that order. |
| Sfr.SfrAllKeepsOthers | spaxelsleuth/utils/linefns.py:768-773 | compute_SFR leaves every non-SFR column unchanged. |
| Ratios.FirstMissing | spaxelsleuth/utils/linefns.py:552-562 | The first missing column of an expression is absent, and none is reported exactly when all are present. |
| Ratios.Eval | spaxelsleuth/utils/linefns.py:566-733 | Evaluating a step's expression succeeds exactly when its columns exist; otherwise KeyError names a missing one; cells are computed row by row. |
| Ratios.Selected | spaxelsleuth/utils/linefns.py:598-611 | In an if/elif chain the first branch whose guard holds runs; none runs exactly when no guard holds. |
| Ratios.DoRulesStopped | spaxelsleuth/utils/linefns.py:509-740 | Once a step raises, later steps do not run. |
| Ratios.RatioFn | spaxelsleuth/utils/linefns.py:509-740 | The method that runs ratio_fn in place leaves exactly the columns and status DoRules describes. |
| Ratios.RunRules | spaxelsleuth/utils/linefns.py:509-740 | Running the steps one by one on the frame agrees with DoRules on every prefix. |
| RatioLaws.DoRulesGuarded | spaxelsleuth/utils/linefns.py:566-642 | Guarded doublet steps never raise and never overwrite a column that is already there. |
| RatioLaws.DoRulesFrame | spaxelsleuth/utils/linefns.py:566-733 | Steps whose targets lie in a set s keep every existing column, add only columns of s, and leave every column outside s unchanged. |
| RatioLaws.DoubletRulesSafe | spaxelsleuth/utils/linefns.py:566-642 | Every doublet step (sums, splits, inferences and their errors) runs only when the columns it writes are absent and those it reads are present. |
| RatioLaws.CombineStep | spaxelsleuth/utils/linefns.py:566-574 | Adding a doublet whose combined column is missing writes a+b, and sqrt(e1²+e2²) for its error, and changes nothing else. |
| RatioLaws.SplitStep | spaxelsleuth/utils/linefns.py:577-585 | Splitting a combined doublet writes ab/(1+ratio) and ab/(1+1/ratio) and keeps the combined column. |
| RatioLaws.SplitCellsSum | spaxelsleuth/utils/linefns.py:577-585 | The two parts of a split add back to the combined flux, and their ratio is the fixed ratio (NaN when the flux is 0). |
| RatioLaws.SplitOIIIStage | spaxelsleuth/utils/linefns.py:578-579 | [OIII] 4959/5007 is split with ratio 2.94. |
| RatioLaws.SplitNIIStage | spaxelsleuth/utils/linefns.py:581-582 | [NII] 6548/6583 is split with ratio 3.06. |
| RatioLaws.SplitSIIIStage | spaxelsleuth/utils/linefns.py:584-585 | [SIII] 9069/9531 is split with ratio 2.47. |
| RatioLaws.SplitRoundTrip | spaxelsleuth/utils/linefns.py:566-642 | After all doublet steps, for each fixed-ratio doublet present only combined, the two parts sum back to the combined column row by row. |
| RatioLaws.DoubletStages | spaxelsleuth/utils/linefns.py:566-642 | When the combine steps pass, the doublet stage is the split steps on their result followed by the remaining doublet steps. |
| RatioLaws.DoubletStageGuarded | spaxelsleuth/utils/linefns.py:566-642 | The doublet steps never raise and keep every column the frame had, with its values. |
| DoubletPass.DoRulesKeys | spaxelsleuth/utils/linefns.py:566-642 | After guarded steps the columns are exactly the input columns plus the targets of each selected branch, computed from the names alone. |
| DoubletPass.CombineStageKeys | spaxelsleuth/utils/linefns.py:566-574 | The combine steps add each [OII]/[SII] sum, or its error, exactly when both members are present, and add nothing else. |
| DoubletPass.SplitStageKeys | spaxelsleuth/utils/linefns.py:577-585 | The flux splits add both members of an [OIII], [NII] or [SIII] doublet exactly when the combined column is present and neither member is. |
| DoubletPass.SplitErrorStageKeys | spaxelsleuth/utils/linefns.py:586-595 | The same for the error columns. |
| DoubletPass.InferStageKeys | spaxelsleuth/utils/linefns.py:597-611 | After the inference steps a fixed-ratio member is present exactly when it or its partner was; combined columns are untouched. |
| DoubletPass.InferErrorStageKeys | spaxelsleuth/utils/linefns.py:613-627 | The same for the error columns. |
| DoubletPass.SumStageKeys | spaxelsleuth/utils/linefns.py:629-635 | The [NII], [OIII] and [SIII] sums are added exactly when both members are present; members are untouched. |
| DoubletPass.SumErrorStageKeys | spaxelsleuth/utils/linefns.py:636-642 | The same for the error sums, in quadrature. |
| DoubletPass.DoubletKeysSettle | spaxelsleuth/utils/linefns.py:566-642 | After one pass every [OII]/[SII] pair with both members has its sum, and every fixed-ratio family (flux or error) is wholly present or wholly absent. |
| DoubletPass.SettledQuiet | spaxelsleuth/utils/linefns.py:566-642 | On settled columns the guard of every doublet step fails. |
| DoubletPass.DoubletSecondPass | spaxelsleuth/utils/linefns.py:566-642 | Running the doublet steps again on their own output raises nothing, adds no column and changes no value. |
| RatioLaws.RatioRulesTargets | spaxelsleuth/utils/linefns.py:644-733 | The diagnostic and axis steps write only ratio columns. |
| RatioLaws.RatioFnKeepsInputs | spaxelsleuth/utils/linefns.py:509-740 | ratio_fn leaves every column outside its ratio outputs unchanged. |
| MetTables.IsK19EndsWith | utils/metallicity.py:374 | The model's K19 test is exactly `endswith("K19")`. |
| MetTables.LineList | utils/metallicity.py:75-105 | Every diagnostic in the line list needs at least two lines. |
| MetTables.MetCoeffsListed | utils/metallicity.py:109-295 | Every diagnostic with metallicity coefficients is a listed K19 diagnostic without ionisation coefficients. |
| MetTables.IonCoeffsListed | utils/metallicity.py:109-295 | Ionisation coefficients exist exactly for O3O2_K19 and S32_K19. |
| MetTables.K19TablesCover | utils/metallicity.py:109-295 | Each listed K19 diagnostic has metallicity or ionisation coefficients, never both. |
| Calibrations.N2HaPP04 | utils/metallicity.py:558-564 | N2Ha_PP04 is 9.37+2.03x+1.26x²+0.32x³ inside (-2.5, -0.3) and NaN exactly outside. |
| Calibrations.N2HaM13 | utils/metallicity.py:566-572 | N2Ha_M13 is 8.743+0.462x inside (-1.6, -0.2) and NaN exactly outside. |
| Calibrations.O3N2PP04 | utils/metallicity.py:574-580 | O3N2_PP04 is 8.73-0.32x inside (-1, 1.9) and NaN exactly outside. |
| Calibrations.O3N2M13 | utils/metallicity.py:582-588 | O3N2_M13 is 8.533-0.214x inside (-1.1, 1.7) and NaN exactly outside. |
| Calibrations.N2S2HaD16 | utils/metallicity.py:590-596 | N2S2Ha_D16 is 8.77+x+0.45(x+0.3)^5 inside (-1.1, 0.5) and NaN exactly outside. |
| Calibrations.N2O2KD02 | utils/metallicity.py:549-556 | N2O2_KD02 keeps its value exactly when it lies inside (8.6, 9.4). |
| Calibrations.K19Fixed | utils/metallicity.py:475-482 | With a fixed log U, Z is the cubic when it lies inside the window; log U is the constant exactly where Z survives, NaN elsewhere. |
| Calibrations.K19Box | utils/metallicity.py:462-469 | After the iteration a pair is kept exactly when Z lies inside both Z windows and U inside the U window; otherwise both become NaN. |
| Calibrations.KK04Fixed | utils/metallicity.py:535-545 | With a fixed log U, both outputs are NaN where R23 >= 1; the lower branch is used when N2O2 < -1.2 and the upper one otherwise, with log q = log U + log c. |
| Calibrations.P10Band | utils/metallicity.py:609-617 | No branch applies exactly when N2 is NaN, or N2 < -0.1 with N2-S2 NaN; cool exactly when N2 >= -0.1; otherwise warm or hot as N2-S2 is at least or below -0.25. |
| Calibrations.P10FiniteHasBand | utils/metallicity.py:609-617 | Every row with finite N2 and S2 falls in one branch. |
| Calibrations.ONSP10 | utils/metallicity.py:598-619 | ONS_P10 is NaN in a row that no branch covers. |
| Calibrations.ONP10 | utils/metallicity.py:621-638 | ON_P10 is NaN in a row that no branch covers. |
| Calibrations.RcalPG16 | utils/metallicity.py:640-655 | Rcal_PG16 is NaN when neither branch condition holds, in particular for -0.6 <= log N2/Hb < 0.6. |
| Calibrations.ScalPG16 | utils/metallicity.py:657-672 | Scal_PG16 is NaN when neither branch condition holds, in particular for -0.6 <= log N2/Hb < 0.6. |
| Calibrations.CubicOfVals | utils/metallicity.py:399-409 | The K19 cubic is finite on finite inputs and NaN when an input is NaN. |
| MetIteration.LoopStopsAtFirstSettled | utils/metallicity.py:438-459 | A bounded loop runs between 1 and max passes, stops at the first pass that settles, and returns that pass's value. |
| MetIteration.Iterate | utils/metallicity.py:438-459 | The loop method with zero passes computes nothing; otherwise it returns the loop's value. |
| MetIteration.K19Stops | utils/metallicity.py:438-459 | The K19 loop starts at (8.0, -3.0), stops at the first pass where both Z and U move by less than 0.001, at most max_niters passes, and returns that pass. |
| MetIteration.K19Iterate | utils/metallicity.py:438-459 | The per-row K19 loop method computes K19Solve. |
| MetIteration.KK04Stops | utils/metallicity.py:497-525 | The KK04 loop runs between 1 and max_niters passes and returns its last one, with log U = log q - log c. |
| MetIteration.KK04SettledAtEnd | utils/metallicity.py:519-525 | The KK04 loop stops early only when Z moved by less than 0.001 (convergence on Z alone). |
| MetIteration.KK04UnsettledBefore | utils/metallicity.py:519-525 | Every KK04 pass before the last moved Z by 0.001 or more. |
| MetIteration.KK04SeedMatchesBranch | utils/metallicity.py:503-515 | The KK04 seed is 8.2 exactly when N2O2 < -1.2, which is also when the lower branch is used. |
| MetIteration.KK04Iterate | utils/metallicity.py:497-525 | The per-row KK04 loop method computes KK04Solve. |
| MetRows.CollectIsFirstFailure | utils/metallicity.py:438-459 | Collecting per-row results succeeds exactly when every row does; otherwise it raises the first row's error. |
| MetRows.K19Columns | utils/metallicity.py:436-469 | The K19 column method fills both arrays exactly as K19ColumnsSpec. |
| MetRows.K19ColumnsMeaning | utils/metallicity.py:438-469 | Z is NaN exactly when U is; NaN inputs give NaN; a surviving row is the loop's result and lies in both windows. |
| MetRows.K19ColumnsSucceed | utils/metallicity.py:415-459 | Without ionisation coefficients the K19 path fails; with them, the ionisation ratio and at least one pass it succeeds; success with no pass allowed means every row had a NaN input. |
| MetRows.KK04Columns | utils/metallicity.py:497-530 | The KK04 column method fills both arrays exactly as KK04ColumnsSpec. |
| MetRows.KK04ColumnsMeaning | utils/metallicity.py:497-530 | KK04 succeeds exactly when at least one pass is allowed or every row has a NaN input; rows whose R23 is not below 1 or with a NaN ratio are NaN in both outputs, the others are the loop's result. |
| Metallicity.CheckNumeric | utils/metallicity.py:365-369 | The line check passes exactly when every required line is a numeric column, and raises otherwise. |
| Metallicity.CheckPresent | utils/metallicity.py:971-991 | The presence check passes exactly when every required column exists. |
| Metallicity.IonRatioAsWritten | utils/metallicity.py:413-418 | As written, an ionisation ratio exists only for "O3O2_K19" and "S23_K19". |
| Metallicity.IonRatio | utils/metallicity.py:413-418 | Corrected: an ionisation ratio exists exactly for the diagnostics with ionisation coefficients (O3O2_K19 and S32_K19). |
| Metallicity.GetMetallicity | utils/metallicity.py:298-672 | The method computes exactly GetMetallicitySpec for every diagnostic. |
| Metallicity.EstimateNeedsLines | utils/metallicity.py:365-369 | A successful estimate used a listed diagnostic whose lines (and the ionisation lines when computing log U) are all present. |
| Metallicity.EstimateShape | utils/metallicity.py:298-672 | K19 and R23_KK04 give a (Z, U) pair, R23_C17 and O3O2_KK04 give nothing, and no pair appears without log U or compute_logU. |
| Metallicity.K19FixedMeaning | utils/metallicity.py:475-482 | K19 with a fixed log U gives, per row, the windowed cubic and that log U. |
| Metallicity.K19ComputedMeaning | utils/metallicity.py:415-469 | K19 with computed log U gives, per row, the iterated pair inside both windows, or NaN for both. |
| Metallicity.WindowedMeaning | utils/metallicity.py:558-596 | A windowed closed form is non-NaN in a row exactly when its ratio lies inside the window. |
| Metallicity.ClosedBranch | utils/metallicity.py:549-672 | Any diagnostic other than K19 and R23_KK04 that succeeds is computed by its closed form. |
| Metallicity.DiagnosticKinds | utils/metallicity.py:75-105 | Every listed diagnostic is K19, R23_KK04, a closed form, R23_C17 or O3O2_KK04, and those kinds are exclusive. |
| Metallicity.S32TypoRaises | utils/metallicity.py:415-418 | As written, S32_K19 with compute_logU reaches the iteration with `logR_ion` unbound and raises NameError. |
| Metallicity.IonColumn | utils/metallicity.py:413-418 | Corrected: the ionisation ratio column exists exactly for the diagnostics with ionisation coefficients. |
| MetFrame.OrderMeaning | utils/metallicity.py:834-861 | no_errs puts the non-SF rows first and the SF rows after them, a permutation of the input rows. |
| MetFrame.SplitLengths | utils/metallicity.py:834-840 | The SF and non-SF rows together are all rows. |
| MetFrame.Subscript | utils/metallicity.py:844-852 | `res[0]`/`res[1]` succeed only on a result of length other than 1, by label for a Series and by position otherwise. |
| MetFrame.WrittenMeaning | utils/metallicity.py:844-861 | A pair writes Z and U; a single estimate writes Z (and fails with log U); "nothing" writes NaN, or raises TypeError when log U is wanted. |
| MetFrame.AssembleMeaning | utils/metallicity.py:853-861 | The output frame adds the result columns; other columns are the input's in the new row order; SF rows get the estimates. |
| MetFrame.AssembleValues | utils/metallicity.py:853-861 | The SF rows of the result columns are the estimates in order. |
| MetFrame.NoErrsLayout | utils/metallicity.py:817-864 | no_errs needs the BPT column; the output keeps the input columns in the new row order and adds the result columns; non-SF rows keep their prior result values. |
| MetFrame.NoErrsValues | utils/metallicity.py:817-864 | no_errs writes the estimates into the SF rows. |
| MetFrame.NoErrsSpecLayout | utils/metallicity.py:817-864 | The same layout, for the estimate no_errs actually computes from the SF rows. |
| MetFrame.NoErrsSpecValues | utils/metallicity.py:817-864 | The SF rows of the result columns are the estimate no_errs computes from the SF rows. |
| MetFrame.InputChecksMeaning | utils/metallicity.py:971-991 | The checks pass exactly when the diagnostic is known, its suffixed lines exist, K19/KK04 have log U or compute_logU, and compute_logU has a matching ionisation diagnostic whose lines exist. |
| MetFrame.NoneSuffixRefused | utils/metallicity.py:974-976 | As written, with s = None the checks look for "lineNone" and fail with AssertionError although the lines are present. |
| MetFrame.StrippedLacksSuffix | utils/metallicity.py:998-1003 | Removing the suffix leaves a name that no longer ends with it. |
| MetFrame.Strip | utils/metallicity.py:998-1003 | Stripping gives each column its name without the suffix and keeps its values; no stripped name ends with the suffix. |
| MetFrame.OriginalFacts | utils/metallicity.py:998-1003 | Every stripped name came from a column that ended with the suffix. |
| MetFrame.RestoreKeeps | utils/metallicity.py:1019-1026 | Re-suffixing gives each original column back under its own name. |
| MetFrame.RestoreAdds | utils/metallicity.py:1019-1026 | New result columns get the suffix appended. |
| MetFrame.ResuffixedRoundTrip | utils/metallicity.py:998-1026 | After strip, compute and re-suffix, every original numeric column the computation does not write comes back under its own name, in the computation's row order. |
| MetFrame.ResuffixedAdds | utils/metallicity.py:1019-1026 | The computed columns appear under name + suffix. |
| MetFrame.SuffixedCalculate | utils/metallicity.py:867-1029 | With a non-empty suffix whose stripped names do not clash, a successful calculate_metallicity is strip, compute, re-suffix. |
| Config.MergeValueMeaning | spaxelsleuth/config.py:53-67 | A non-dict setting is replaced by the user's value. A dict setting merged with a dict keeps the subkeys the user leaves out and takes the user's subkeys, one level deep. Merged with a list, it raises exactly when some element is not a valid index, and otherwise files each element's indexed value under that index. Merged with a string or scalar, it stays unchanged, and it raises unless the string is empty. |
| Config.SetItemsMeaning | spaxelsleuth/config.py:53-65 | The subkey loop over a list raises exactly when some element is not a valid int or bool index. Otherwise the new keys are the old ones plus the indices, each index holds `xs[index]` (negative indices count from the end), and every other key is unchanged. |
| Config.SetItemsValid | spaxelsleuth/config.py:53-58 | The subkey loop over a list passes exactly when every element is a valid index into the list. |
| Config.SetItemsStops | spaxelsleuth/config.py:53-65 | A list raises at its first invalid element, with that element's error, and the writes of the elements before it stay. |
| Config.MergeValueIdempotent | spaxelsleuth/config.py:53-67 | Merging the same user value again into what a successful merge produced gives the same result. |
| Config.MergeKeysAt | spaxelsleuth/config.py:49-71 | After a merge that raised nothing, the keys are the old ones plus the user's. Keys the user leaves out are unchanged, new keys take the user's value, and shared keys take the merged value. A key named twice ends as if named once. |
| Config.MergeKeysFails | spaxelsleuth/config.py:53-65 | The merge raises exactly when some shared dict setting receives a user value that cannot be merged into it. |
| Config.MergeKeysIdempotent | spaxelsleuth/config.py:49-71 | Applying the same user keys twice gives the same settings as once. |
| Config.MergeKeysKeepsOrder | spaxelsleuth/config.py:49-65 | Merging only existing keys keeps the key order and the key set. |
| Config.MergeItemsValid | spaxelsleuth/config.py:49-71 | A top-level list that merged without raising has a hashable, valid int or bool index in every element. |
| Config.MergeItemsAsKeys | spaxelsleuth/config.py:49-71 | A top-level list of valid indices merges exactly like a user object whose keys are those indices, each with the list's value at that index, repeats included. |
| Config.LoadTwice | spaxelsleuth/config.py:41-71 | Loading the same user config twice, whether it is an object or a list, gives the same result as loading it once. |
| Config.Settings.MergeSubkeys | spaxelsleuth/config.py:53-65 | The subkey loop writes each user subkey into the dict setting, in order. |
| Config.Settings.MergeListSubkeys | spaxelsleuth/config.py:53-65 | The in-place subkey loop over a list gives exactly SetItems: the status, and the setting with the partial writes. |
| Config.Settings.MergeKey | spaxelsleuth/config.py:50-71 | Merging one key in place gives exactly MergeOne. |
| Config.Settings.LoadUserList | spaxelsleuth/config.py:49-71 | The in-place loop over a top-level list gives exactly MergeItems. |
| Config.Settings.LoadUserConfig | spaxelsleuth/config.py:41-71 | The in-place load gives exactly LoadUserConfigSpec. |
| Config.ConfigureLogger | spaxelsleuth/config.py:15-18 | Passes exactly for DEBUG, INFO, WARNING, ERROR and CRITICAL, and raises ValueError otherwise. |
| SamiFlags.FirstBestMeaning | spaxelsleuth/io/sami.py:246-264 | The kept rows have distinct catids, each passes the DQ cut and is its galaxy's first such row, and every galaxy with a passing row is kept. |
| SamiFlags.KeepFirstBest | spaxelsleuth/io/sami.py:258-262 | The loop that drops later duplicates keeps exactly FirstBest. |
| SamiFlags.AllHandled | spaxelsleuth/io/sami.py:258-264 | Once every galaxy with a passing row has been visited, the kept rows are FirstBest. |
| SamiFlags.PopValue | spaxelsleuth/io/sami.py:272 | Removing a catid succeeds exactly when it is in the list and drops one entry; otherwise ValueError. |
| SamiFlags.GoodMeaning | spaxelsleuth/io/sami.py:272-276 | "Good?" succeeds exactly when 9008500001 was observed, and is true exactly for the observed catids other than 9008500001. |
| SamiFlags.GoodColumn | loaddata/sami.py:316-323 | The method computes exactly GoodSpec. |
| SamiCatalogue.MorphologyAsWrittenKeepsNaN | spaxelsleuth/io/sami.py:228-229 | As written, the `== np.nan` rule never fires, so NaN morphologies stay NaN. |
| SamiCatalogue.MorphologyMerged | spaxelsleuth/io/sami.py:224-229 | Codes 5.0, -9.0 and (corrected) NaN all become -0.5; other codes and columns are unchanged; recoding again changes nothing. |
| SamiCatalogue.MergeMorphologies | spaxelsleuth/io/sami.py:224-229 | The in-place recode gives exactly MorphologySpec. |
| SamiCatalogue.KeepLastMeaning | spaxelsleuth/io/sami.py:292-296 | Keeping the last row per catid yields distinct catids, covers every galaxy, and each kept row is its galaxy's last. |
| SamiCatalogue.KeptIsGreatest | spaxelsleuth/io/sami.py:291-296 | After sorting by photometry, the kept row has the greatest photometry name of its galaxy. |
| SamiCatalogue.SurveyOrder | spaxelsleuth/io/sami.py:291-296 | "VST" sorts after "SDSS". |
| SamiCatalogue.VstKeptAt | spaxelsleuth/io/sami.py:297-300 | A galaxy with a VST row keeps VST when only SDSS and VST occur. |
| SamiCatalogue.VstKept | spaxelsleuth/io/sami.py:297-300 | With only SDSS and VST photometry, the assertion that VST was kept holds. |
| SamiCatalogue.DropDuplicateFits | spaxelsleuth/io/sami.py:283-300 | The method computes exactly MgeSpec. |
| SamiCatalogue.RedshiftMeaning | spaxelsleuth/io/sami.py:395-405 | z is the flow-corrected redshift when present, else the spectroscopic one; other columns unchanged; the assertion fails exactly when a cluster member has a flow-corrected redshift. |
| SamiCatalogue.RedshiftIgnoresOldZ | spaxelsleuth/io/sami.py:395-405 | A previous z column does not change the result. |
| SamiCatalogue.AssignRedshifts | spaxelsleuth/io/sami.py:395-405 | The in-place method gives exactly RedshiftSpec. |
| SamiBins.MaskZeros | spaxelsleuth/io/sami.py:682 | Bin label 0 becomes NaN; other labels are kept. |
| SamiBins.LabelsMeaning | spaxelsleuth/io/sami.py:682-685 | The unique labels are strictly ascending, and are exactly the non-NaN, nonzero values of the bin map. |
| SamiBins.CountZero | spaxelsleuth/io/sami.py:690-703 | A bin has no spaxels exactly when no cell carries its label. |
| SamiBins.BinEntries | spaxelsleuth/io/sami.py:690-703 | There is one centroid entry per unique label, in label order. |
| SamiBins.BinCentroids | spaxelsleuth/io/sami.py:677-711 | The method fills and filters the centroid and size lists exactly as BinsSpec. |
| SamiBins.MeasureBins | spaxelsleuth/io/sami.py:690-703 | The loop fills x, y and size for every label, aligned with the labels. |
| SamiBins.BinsAligned | spaxelsleuth/io/sami.py:706-711 | After filtering, the x, y, size and number lists are aligned; each kept bin's x and y are its placed centroid, its size its spaxel count, and the labels ascend. |
| SamiBins.KeptInside | spaxelsleuth/io/sami.py:706-711 | Every kept bin has x in [0, nx) and y neither below 0 nor at or beyond ny. |
| SamiBins.FiniteImageInside | spaxelsleuth/io/sami.py:706-711 | With a finite image, every kept y lies in [0, ny). |
| SamiBins.DropAllNaNRows | spaxelsleuth/io/sami.py:937-939 | A row is kept exactly when it is not entirely NaN. |
| SamiBins.NothingDropped | spaxelsleuth/io/sami.py:937-939 | When a column is never NaN, no row is dropped. |
| SamiSpaxels.ComponentCountMeaning | loaddata/sami.py:1173-1180 | The count is the number of non-NaN sigma_gas components (0 to 3, or 0 to 1), 0 exactly when all are NaN and full exactly when none is; a missing component raises KeyError. |
| SamiSpaxels.CountedRows | loaddata/sami.py:1176-1180 | Per row, the count lies between 0 and the number of components. |
| SamiSpaxels.CountComponents | loaddata/sami.py:1173-1180 | The in-place method gives exactly ComponentCountSpec. |
| SamiSpaxels.Clip | loaddata/sami.py:1188 | A negative continuum becomes 0, others are kept. |
| SamiSpaxels.ClipIdempotent | loaddata/sami.py:1188 | Clipping twice is clipping once. |
| SamiSpaxels.Ew | loaddata/sami.py:1195-1203 | The EW is NaN when the continuum is NaN or not positive, and Halpha/continuum for a finite flux over a positive continuum. |
| SamiSpaxels.EwErr | loaddata/sami.py:1196-1203 | The EW error is NaN wherever the EW is. |
| SamiSpaxels.EwComponentMeaning | loaddata/sami.py:1192-1203 | One component's step raises KeyError exactly when its flux or error is missing; otherwise it writes the EW and EW error columns. |
| SamiSpaxels.EwStepFails | loaddata/sami.py:1185-1203 | The EW step raises KeyError exactly when a continuum column or a fitted component's flux or error is missing. |
| SamiSpaxels.EwStepKeeps | loaddata/sami.py:1185-1203 | The EW step changes only the clipped continuum and the EW columns it writes. |
| SamiSpaxels.EwStepWrites | loaddata/sami.py:1185-1203 | The continuum is clipped and each component's EW and error are computed from it. |
| SamiSpaxels.EquivalentWidths | loaddata/sami.py:1185-1203 | The in-place method gives exactly EwSpec. |
| SamiLines.TotalColumn | loaddata/sami.py:1206-1217 | The total EW is the nansum of the components, but NaN when every component is NaN. |
| SamiLines.TotalErrColumn | loaddata/sami.py:1206-1217 | The total EW error is the root of the nansum of squares, NaN when every component EW is NaN. |
| SamiLines.EwTotalFails | loaddata/sami.py:1206-1217 | The totals raise KeyError exactly when a component column is missing, and change nothing else. |
| SamiLines.EwTotalWrites | loaddata/sami.py:1206-1217 | The totals are written from the component columns. |
| SamiLines.TotalRow | loaddata/sami.py:1206-1217 | Per row the total is NaN exactly when all components are NaN or their nansum is; with finite components it is their sum; all-NaN rows have a NaN error. |
| SamiLines.EwTotals | loaddata/sami.py:1206-1217 | The in-place method gives exactly EwTotalSpec. |
| SamiLines.RadiusMeaning | loaddata/sami.py:1241 | Raises KeyError and changes nothing exactly when either radius column is missing. Otherwise, in every row, r/R_e is radius over R_e, NaN when either is NaN, and non-negative for a non-negative radius over a positive R_e. Other columns are kept. |
| SamiLines.RadiusRow | loaddata/sami.py:1241 | r/R_e is the plain quotient for nonzero R_e, NaN for NaN inputs, and non-negative for non-negative inputs. |
| SamiLines.RelativeRadii | loaddata/sami.py:1241 | The in-place method gives exactly RadiusSpec. |
| SamiLines.SnFromFails | loaddata/sami.py:1249-1251 | The S/N loop raises exactly when a component flux exists without its error. |
| SamiLines.SnFromWrites | loaddata/sami.py:1249-1251 | Each component S/N is flux over error. |
| SamiLines.SnFromKeeps | loaddata/sami.py:1249-1251 | The S/N loop changes only the S/N columns. |
| SamiLines.LineTotalFails | loaddata/sami.py:1254-1256 | The line total raises exactly when it is absent and a component flux or error is missing. |
| SamiLines.LineTotalWrites | loaddata/sami.py:1254-1256 | An absent total is the nansum of the component fluxes, and its error the root of the nansum of squared errors. |
| SamiLines.LineTotalsComputed | loaddata/sami.py:1247-1259 | For an absent total, total, error and total S/N are all written. |
| SamiLines.LineTotalsGiven | loaddata/sami.py:1254-1259 | An existing total and error are kept, and only the total S/N is computed. |
| SamiLines.LineTotalRow | loaddata/sami.py:1254-1259 | All-NaN component fluxes give a total of 0, and with all-NaN errors a NaN total S/N. |
| SamiLines.Lines | loaddata/sami.py:1247-1259 | The in-place method gives exactly LinesSpec. |
| SamiSfr.DropSpec | loaddata/sami.py:1223-1227 | Dropping columns raises KeyError exactly when one is absent, and otherwise removes exactly those. |
| SamiSfr.RelabelledMoved | loaddata/sami.py:1230-1236 | The four component-1 SFR columns are renamed to their "(total)" names. |
| SamiSfr.SfrStepFails | loaddata/sami.py:1223-1227 | The SFR step raises KeyError exactly for recombination fits missing a component 2 or 3 SFR column. |
| SamiSfr.SfrStepMoves | loaddata/sami.py:1223-1236 | After the step each component-1 SFR column reads under its total name, and components 2 and 3 are gone. |
| SamiSfr.SfrStepKeeps | loaddata/sami.py:1223-1236 | Every other column is unchanged. |
| SamiSfr.SfrColumns | loaddata/sami.py:1223-1236 | The in-place method gives exactly SfrSpec. |
| SamiSfr.ShareColumn | loaddata/sami.py:1265-1268 | A component-1 quantity is the total times Halpha (component 1) over Halpha (total). |
| SamiSfr.ShareFails | loaddata/sami.py:1265-1268 | The share step raises KeyError exactly when one of its inputs is missing. |
| SamiSfr.ShareWrites | loaddata/sami.py:1265-1268 | Each component-1 share is written from the totals. |
| SamiSfr.ShareKeeps | loaddata/sami.py:1265-1268 | The share step changes only the component-1 columns it writes. |
| SamiSfr.ShareRowNaN | loaddata/sami.py:1265-1268 | Per row a NaN total or Halpha cell gives a NaN component SFR. |
| SamiSfr.ShareRowValue | loaddata/sami.py:1265-1268 | On finite cells with non-zero total Halpha the component SFR is total SFR times the component Halpha over the total Halpha. |
| SamiSfr.ShareRowWhole | loaddata/sami.py:1265-1268 | When all Halpha is in component 1, component 1 gets the whole total SFR. |
| SamiSfr.ShareRowBounded | loaddata/sami.py:1265-1268 | A non-negative total SFR shared by a Halpha fraction between 0 and 1 gives a finite component SFR between 0 and the total. |
| SamiSfr.ShareComponentOne | loaddata/sami.py:1265-1268 | The in-place method gives exactly ShareSpec. |
| SamiSfr.MaskFails | loaddata/sami.py:1271-1280 | The masks raise KeyError exactly when inclination or SFR (total) is missing. |
| SamiSfr.MaskCell | loaddata/sami.py:1271-1280 | A cell becomes NaN exactly when its column is an SFR-density column and the inclination is NaN, or an SFR column and SFR (total) is 0. |
| SamiSfr.InclinationCell | loaddata/sami.py:1271-1273 | SFR-density columns are NaN where the inclination is NaN. |
| SamiSfr.ZeroSfrCell | loaddata/sami.py:1278-1280 | SFR columns are NaN where SFR (total) is 0. |
| SamiSfr.MaskKeepsInputs | loaddata/sami.py:1271-1280 | After masking, SFR (total) is nowhere 0 and the inclination is unchanged. |
| SamiSfr.MaskIdempotent | loaddata/sami.py:1271-1280 | Masking twice is masking once. |
| SamiSfr.MaskSfr | loaddata/sami.py:1271-1280 | The in-place method gives exactly MaskSpec. |
| SamiApertures.SnStepMeaning | loaddata/sami.py:1614-1618 | An aperture S/N is flux over error, skipped when the flux is absent, KeyError when the error is. |
| SamiApertures.LowFlagMeaning | loaddata/sami.py:1644-1649 | The low-S/N flag is raised where S/N < eline_SNR_min and kept where it was set; a NaN S/N leaves it as it was; no numeric column changes. |
| SamiApertures.MissingFlagMeaning | loaddata/sami.py:1656-1661 | The missing-flux flag is raised where the flux is NaN and its error is not. |
| SamiApertures.FlagsFromFalse | loaddata/sami.py:1623-1661 | From freshly initialised flags, the flags are exactly these conditions. |
| SamiApertures.InitFlagsSets | loaddata/sami.py:1623-1627 | Initialisation sets every line and sigma flag of every aperture to all False. |
| SamiApertures.InitialiseFlags | loaddata/sami.py:1623-1627 | The in-place method gives exactly InitFlags. |
| SamiApertures.ZeroSfrMeaning | loaddata/sami.py:1633-1636 | SFR columns of an aperture are NaN where its SFR is 0, and KeyError when that SFR is missing. |
| SamiApertures.ZeroSfrGone | loaddata/sami.py:1633-1636 | After the step that aperture's SFR is nowhere 0. |
| SamiApertures.SigmaRowFinite | loaddata/sami.py:1668-1685 | sigma_obs = sqrt(sigma_gas² + 29.6²) and the target S/N = 3(1 + 29.6²/sigma_gas²). |
| SamiApertures.SigmaRowZero | loaddata/sami.py:1668-1685 | sigma_gas = 0 gives a +inf target, so every finite S/N is flagged; a NaN or infinite S/N is not. |
| SamiApertures.SigmaRowNaN | loaddata/sami.py:1668-1685 | NaN sigma_gas gives NaN target, so the flag is not raised. |
| SamiApertures.SigmaFlagFails | loaddata/sami.py:1668-1685 | The sigma step raises KeyError on a missing sigma_gas or sigma_gas error column, and passes otherwise. |
| SamiApertures.SigmaFlagWrites | loaddata/sami.py:1668-1685 | It writes sigma_obs, its S/N and the target S/N. |
| SamiApertures.SigmaFlagRaised | loaddata/sami.py:1668-1685 | The low sigma_gas flag is raised where the S/N is below the target. |
| SamiApertures.MaskStepMeaning | loaddata/sami.py:1690-1719 | A raised flag NaNs the line's non-flag columns of the aperture and nothing else; a missing flag raises KeyError. |
| SamiApertures.HalphaMasksAperture | loaddata/sami.py:1694-1703 | A Halpha flag NaNs every non-flag column of the aperture. |
| SamiApertures.OtherLineScope | loaddata/sami.py:1694-1719 | Another line's flag leaves columns without that line's name, flag columns and other apertures untouched. |
| SamiApertures.SigmaMaskNameError | loaddata/sami.py:1721-1729 | As written, the sigma mask raises NameError on `nn` exactly when some column name contains "delta"; otherwise it equals the corrected step. |
| SamiApertures.SigmaMaskNameErrorWitness | loaddata/sami.py:1721-1729 | A one-row frame with a "delta" column raises NameError as written while the corrected step passes. |
| SamiApertures.SigmaMaskMeaning | loaddata/sami.py:1721-1729 | Corrected: a raised low sigma_gas flag NaNs the aperture's non-flag sigma_gas columns, and nothing else. |
| SamiApertures.MasksNeverFail | loaddata/sami.py:1609-1729 | The whole aperture step fails exactly when the flag stage does: masking never raises once flags are set. |
| SamiApertures.FlagStageReady | loaddata/sami.py:1623-1685 | A successful flag stage leaves every flag the masks need. |
| SamiApertures.MaskStageReady | loaddata/sami.py:1690-1729 | With every flag present, the mask stage passes. |
| SamiApertures.SweepKeepsFlags | loaddata/sami.py:1640-1719 | The line sweeps never remove a flag. |
| SamiApertures.FlagAndMaskApertures | loaddata/sami.py:1609-1729 | The in-place method over the SAMI apertures and lines gives exactly ApertureSpec. |

## Left out

- Reading and writing files (FITS cubes, CSV and HDF5 tables, JSON files), printing and logging output: I/O, outside the logic modelled here; the configuration is modelled from the already-parsed JSON value.
- Multiprocessing (`Pool`, `configure_multiprocessing`) and the order in which workers finish: concurrency; every per-galaxy step is modelled as a sequential map.
- Monte-Carlo metallicity errors (`_met_err_helper_fn`, `_get_metallicity_errs`): they draw random numbers.
- IEEE rounding, overflow and signed zero: reals are exact, and zero is taken as +0.
- `log10` and `sqrt`: passed in as uninterpreted functions on positive reals, so values that depend on them are stated relative to those parameters.
- Electron density routines are not part of this model.
- `pd.to_numeric` is not modelled: every numeric column is already numeric, and a text column is not parsed into numbers.
- Presence tests: `Ratios.Holds` (the `in_df` / `not_in_df` guards of `ratio_fn`) and the presence tests in `SamiLines`, `SamiSpaxels` and `SamiApertures` look only at the numeric column group, where the source tests `df.columns` of any dtype. A text or flag column with the name a rule writes is skipped by the source but written over as a numeric column by the model.
- RatioLaws.DoubletStageGuarded: its "never overwrites" covers numeric columns only, because of the presence tests above.
- Row labels: the index is taken to be a RangeIndex, so a row's label is its position.
- `None` written into a numeric column is modelled as NaN.
- Column order: `pd.concat(..., sort=True)` sorts the column names; the model keeps columns in maps and has no column order.
- Renames: a rename onto a name that already exists replaces that column, where pandas would keep both columns under the same name.
- MetFrame.CalculateWith and MetFrame.CalculateSpec: they require `SuffixSafe`, which excludes frames pandas accepts: two columns whose names agree once the suffix is stripped (pandas lets the later one win), and a suffix that occurs inside a column name before its end.
- `gals` used before assignment at loaddata/sami.py:382: that code reads files and is not part of this model.
- The helpers `remove_col_suffix` / `add_col_suffix`, `dqcut` and `extcorr` from other modules are not part of this model; the linefns routines take columns as name + suffix directly.
- Calibrations.CubicOfVals: states that the K19 cubic is finite on finite inputs and NaN on NaN inputs, not its value as a polynomial, because nonlinear real arithmetic on two variables does not verify reliably.
- Config value semantics: settings and user objects are values, so aliasing between the user JSON and the settings is not modelled; the merge loop never observes it.
- Config keys: a JSON `true` used as a list element becomes key `Index(1)`, which hashes and compares like Python's `True` but does not print like it.
- Config errors: exception messages are abridged to their first clause.
- JSON objects with duplicate keys are not modelled (the parser keeps the last; the model takes the parsed object as given).
- Classify.FloatText: codes other than the classifier's own are rendered as "" rather than Python's digits, so the KeyError of `bpt_num_to_str` arises on the same values but with a different message.

## Findings

| source | as written | input that shows it | evidently intended | confidence | as-written member | corrected member |
|---|---|---|---|---|---|---|
| spaxelsleuth/utils/linefns.py:287 | `np.all` of a generator expression is always true, so the column-presence test never fails | a frame without "log O3": `bpt_fn` raises KeyError instead of marking every row -1 (the same guard in `law2021_fn` at line 442) | test that all three ratio columns are present | not executed | Classify.BptGuardAsWritten | Classify.GuardsAgree |
| utils/metallicity.py:415-418 | the ionisation ratio is computed for "S23_K19", which is not an ionisation diagnostic, and never for "S32_K19" | `S32_K19` with `compute_logU` and a row whose ratio is not NaN: NameError on `logR_ion` | the S [III] / S [II] ratio is computed for "S32_K19" | not executed | Metallicity.S32TypoRaises | Metallicity.IonColumn |
| utils/metallicity.py:974-976 | the line checks use `f"{line}{s}"`, which appends "None" when no suffix is given | `calculate_metallicity(df, ..., s=None)` on a frame whose lines carry no suffix: AssertionError | with `s=None` the lines are looked up under their own names | not executed | MetFrame.NoneSuffixRefused | MetFrame.InputChecksMeaning |
| spaxelsleuth/io/sami.py:228-229 | `== np.nan` is false for every cell, so NaN morphologies are never recoded | a galaxy whose morphology is missing keeps NaN instead of -0.5 | recode missing morphologies (test with `isna`) | not executed | SamiCatalogue.MorphologyAsWrittenKeepsNaN | SamiCatalogue.MorphologyMerged |
| loaddata/sami.py:1728 | the column list for the sigma_gas mask uses `nn`, which is not bound in that scope | `sigma_gas_SNR_cut=True` on a frame with a "delta" column: NameError on `nn` | mask the aperture's own sigma_gas columns | not executed | SamiApertures.SigmaMaskNameErrorWitness | SamiApertures.SigmaMaskMeaning |
