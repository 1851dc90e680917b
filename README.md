# Student-outcome preprocessing, modelled in Dafny

This project models the preprocessing module of a student-outcome
prediction service (`preprocess.py`). It covers four things:

- **The code book.** This is the rename table `conversion_dict`, which maps
  the data set's original headers to camelCase column labels. It also
  includes:
  - the categorical code tables;
  - the two ordinal bucketings, `qualificationOrdinal` and
    `occupationOrdinal`;
  - the table `econ_to_year`, which recognises an academic year from its
    unemployment rate, inflation rate and GDP growth;
  - the outcome encoding `targetMap` and its inverse `targetMapReverse`.
- **The feature derivation of the tree models.** `rfPreProc` and
  `hgbPreProc` share it. It:
  - shifts the application order;
  - adds the ordinal tiers of the previous qualification and of the
    parents' qualifications and occupations, with the parents' average
    tier and tier distance;
  - adds the approval, performance, credit-load and evaluation rates of
    each semester, and the no-academic-activity flag;
  - adds the stress index, the good-economy flag and the academic year;
  - adds the integer outcome code when the frame has more than one row.
- **The scaler store.** This is the global `scale_ann` and its one
  operation, `addGetScaleCol`. A frame of several rows fits a min-max
  scaler on the column, transforms the column, and stores the scaler. A
  one-row frame is transformed with the stored scaler, or is left alone
  when there is none.
- **The neural-network pipeline, `annPreProc`.** It:
  - one-hot encodes the seven nominal columns;
  - derives the same features as the tree pipelines;
  - passes the 34 columns listed in `AnnScaling.Scaled` through
    `addGetScaleCol`, in the source's order. The other columns stay
    unscaled: the binary flags, the approval and evaluation rates, the
    no-academic-activity flag, the good-economy flag and the outcome code.

How the model is built:

- **Frames are values.** A data frame is a row count plus a map from
  column label to the column's cells (`Frames.Frame`).
- **Cells.** A cell is a real number, a missing value, or a text label
  (`Cells.Cell`).
- **Pipelines are methods.** Each pipeline is a method that threads its
  frame statement by statement, like the source does.
- **The store is a class.** The scaler store is the class
  `Scaling.ScalerStore`, and its `scalers` map is updated in place.
- **Specification functions.** Each method is proved against a function:
  - `Derivation.DeriveFeatures` for the tree pipelines;
  - `AnnSpec.AnnFeatures` and `AnnSpec.AnnFits` for `annPreProc`.
- **What is proved about them.** Lemmas prove what those functions
  promise:
  - which columns exist;
  - what every derived cell holds;
  - which columns are scaled and into what range;
  - how the indicator columns encode the nominal ones;
  - how the store is used.

## Model

| member | source | states |
|---|---|---|
| CodeBook.QualificationOrdinal | preprocess.py:300-306 | a qualification code's tier, when it has one, is between 0 and 4 |
| CodeBook.OccupationOrdinal | preprocess.py:457-464 | an occupation code's tier, when it has one, is between 0 and 5 |
| CodeBook.QualificationCodesBucketed | preprocess.py:261-306 | a code has a qualification tier exactly when the combined qualification table lists it |
| CodeBook.CombinedQualificationsBucketed | preprocess.py:261-306 | every code of the combined qualification table has a tier |
| CodeBook.OccupationCodesBucketed | preprocess.py:404-464 | a code has an occupation tier exactly when the combined occupation table lists it |
| CodeBook.LowerOccupationsBucketed | preprocess.py:404-464 | every code in the first half of the combined occupation table has a tier |
| CodeBook.UpperOccupationsBucketed | preprocess.py:404-464 | every code in the second half of the combined occupation table has a tier |
| CodeBook.TiersNamed | preprocess.py:300-474 | every tier a qualification or occupation code gets has a display name |
| CodeBook.ParentQualificationCodesCombined | preprocess.py:190-297 | every code of the mother's and the father's qualification tables is in the combined table |
| CodeBook.PreviousQualificationCodesCombined | preprocess.py:142-160 | every previous-qualification code is in the combined qualification table |
| CodeBook.ParentOccupationCodesCombined | preprocess.py:318-454 | every code of the mother's and the father's occupation tables is in the combined table |
| CodeBook.MotherOccupationCodesCombined | preprocess.py:318-351 | every mother-occupation code is in the combined occupation table |
| CodeBook.FatherOccupationCodesCombined | preprocess.py:354-401 | every father-occupation code is in the combined occupation table |
| CodeBook.ListedCodesHaveTiers | preprocess.py:142-464 | every code the five field tables list gets a tier, so the ordinal columns are missing only for unlisted codes |
| CodeBook.EconEpochs | preprocess.py:522-533 | the years are exactly 2010 to 2019, and no two indicator triples share a year |
| CodeBook.TargetRoundTrip | preprocess.py:536-541 | targetMap has the three outcomes, targetMapReverse has the codes 0 to 2, and each map undoes the other |
| Columns.Find | preprocess.py:43-81 | the lookup succeeds exactly when the header is listed, and it returns a label listed beside that header |
| Columns.LabelsIndexed | preprocess.py:43-81 | conversion_dict has 37 entries, and every value is a canonical label at its own position |
| Columns.ConversionValuesDistinct | preprocess.py:43-81 | the 37 values of conversion_dict are pairwise distinct |
| Columns.ConversionDict | preprocess.py:43-81 | a header is found exactly when it is a key; the label found is canonical, and the key at that label's position is the header |
| Columns.ConversionInjective | preprocess.py:43-81 | two headers renamed to the same label are the same header |
| Columns.RenameCol | preprocess.py:580 | a label changes only when it is an original header, and then it becomes conversion_dict's value |
| Columns.RenameIdempotent | preprocess.py:580 | renaming a label twice gives what renaming it once gives |
| Columns.RenameInjective | preprocess.py:580 | under RenameDefined, distinct columns keep distinct labels |
| Frames.SetColumn | preprocess.py:587 | assigning a column of the right length keeps every column at one cell per row |
| Frames.DropColumn | preprocess.py:588 | dropping a column keeps every column at one cell per row |
| Frames.RenameSourceInverts | preprocess.py:580 | the label a column came from can be recovered from its renamed label |
| Frames.Rename | preprocess.py:580 | the renamed frame has exactly the renamed labels and the same row count; every column keeps its cells under its new label |
| Frames.Indicate | preprocess.py:705 | the indicator column is 1 exactly in the rows that hold the value, and 0 elsewhere |
| Frames.GetDummies | preprocess.py:705 | the encoded column is gone and all other columns are kept; each observed value gets an indicator column marking its rows |
| Frames.Dummies | preprocess.py:705 | get_dummies adds exactly one indicator column per observed non-missing value, each as long as the column |
| Frames.OneHotRow | preprocess.py:705 | in every row, exactly the indicator of the row's value is 1, and none is when the value is missing |
| Features.Shifted | preprocess.py:587 | the shifted order is one more than the order, and missing stays missing |
| Features.QualificationOrdinalOf | preprocess.py:595 | the tier is present exactly when the code is a whole number that has a tier; it is a whole number from 0 to 4 |
| Features.OccupationOrdinalOf | preprocess.py:611 | the tier is present exactly when the code is a whole number that has a tier; it is a whole number from 0 to 5 |
| Features.OrdinalsCoverCombinedTables | preprocess.py:595-612 | an ordinal column is missing exactly where the code is missing, not whole, or absent from the combined table |
| Features.MeanSkipNaN | preprocess.py:605 | the row mean skips a missing tier: it is missing only when both are, and otherwise lies midway |
| Features.AbsDiff | preprocess.py:606 | the distance is non-negative and equals one of the two differences; it is missing when a tier is missing |
| Features.SafeRatio | preprocess.py:635 | a missing operand or a zero denominator gives 0; otherwise the result times the denominator is the numerator |
| Features.Sum | preprocess.py:641 | the sum is present exactly when both terms are, and minus the second term it gives the first |
| Features.EvalRate | preprocess.py:641 | evaluations over (evaluations + without evaluations), and 0 when that total is zero or missing |
| Features.FilledProduct | preprocess.py:637 | the rate times the grade, and 0 when the rate is 0 or either factor is missing |
| Features.InactiveFlag | preprocess.py:644-652 | the flag is 0 or 1, and 1 exactly when enrolments, evaluations and grades are 0 in both semesters |
| Features.StressIndex | preprocess.py:655 | the stress index plus GDP growth equals unemployment plus inflation; it is missing when an input is |
| Features.EconomyGoodFlag | preprocess.py:656 | the flag is 1 exactly when GDP growth exceeds 1.5 and unemployment is below 10; a missing value gives 0 |
| Features.YearOf | preprocess.py:659 | the year is present exactly when the triple is in econ_to_year, and is then a whole year from 2010 to 2019 |
| Features.TargetCode | preprocess.py:669 | the code is present exactly when the label is in targetMap, and targetMapReverse maps the code back to the label |
| Features.EvalRateUnitInterval | preprocess.py:641-642 | with non-negative counts, the evaluation rate is in [0, 1] |
| Features.NoEnrolmentNoPerformance | preprocess.py:635-640 | with no (or unknown) enrolment, the approval rate, the credit-load reduction and the performance index are all 0 |
| Features.DisparityBounded | preprocess.py:603-614 | the parental distance is symmetric, and at most 4 tiers (qualification) or 5 tiers (income) |
| Features.AverageWithinTiers | preprocess.py:603-614 | the parents' average tier stays within the tier range |
| Features.YearIdentifiesEpoch | preprocess.py:659 | two rows given the same year have the same three indicators |
| Derivation.QualificationFeatures | preprocess.py:595-606 | adds exactly the five qualification columns, each one cell per row |
| Derivation.OccupationFeatures | preprocess.py:611-614 | adds exactly the four occupation columns, each one cell per row |
| Derivation.InactiveColumn | preprocess.py:644-652 | row by row, the no-academic-activity flag of the six curricular inputs |
| Derivation.RateFeatures | preprocess.py:635-640 | adds exactly the six rate columns, each one cell per row |
| Derivation.ActivityFeatures | preprocess.py:641-652 | adds exactly the two evaluation rates and the inactivity flag, each one cell per row |
| Derivation.EconFeatures | preprocess.py:655-659 | adds exactly the stress index, the economy flag and the year, each one cell per row |
| Derivation.TargetFeatures | preprocess.py:668-669 | the outcome code column is present exactly when the frame has more than one row |
| Derivation.Sections | preprocess.py:595-659 | the derived section columns never include the outcome, its code or the shifted order |
| Pipelines.ShiftOrder | preprocess.py:587-588 | the order column is replaced by the shifted one; the caller's frame gains the shifted column |
| Pipelines.DeriveQualifications | preprocess.py:595-608 | the three qualification code columns are replaced by the qualification features |
| Pipelines.DeriveOccupations | preprocess.py:611-616 | the two occupation code columns are replaced by the occupation features |
| Pipelines.DeriveRates | preprocess.py:635-640 | the rate features are added, and nothing is dropped |
| Pipelines.DeriveActivity | preprocess.py:641-652 | the evaluation rates and the inactivity flag are added, and nothing is dropped |
| Pipelines.DeriveEcon | preprocess.py:655-659 | the stress index, the economy flag and the year are added, and nothing is dropped |
| Pipelines.DeriveSections | preprocess.py:595-659 | all sections together: the five code columns are replaced by every section's features |
| Pipelines.EncodeTarget | preprocess.py:668-672 | the outcome code is added when there are several rows, and the outcome label is dropped when present |
| Pipelines.DeriveAll | preprocess.py:587-672 | the statement-by-statement derivation returns DeriveFeatures of its input |
| Pipelines.RfPreProc | preprocess.py:579-674 | rfPreProc returns DeriveFeatures of the renamed frame; the caller's frame ends renamed, with the shifted order added |
| Pipelines.HgbPreProc | preprocess.py:849-944 | hgbPreProc returns the same as rfPreProc and leaves the caller's frame the same way |
| Pipelines.RfHgbAgree | preprocess.py:579-674 | rfPreProc and hgbPreProc give the same frame on every input they accept; this follows from their identical statements |
| RfProperties.DerivedLabelsSplit | preprocess.py:587-659 | the derived labels are the shifted order plus the five sections' labels |
| RfProperties.DerivedKeys | preprocess.py:587-672 | the derived columns are the derived labels plus the outcome code when there is one |
| RfProperties.DeriveKeys | preprocess.py:579-674 | rfPreProc's columns are the input's, minus the seven consumed ones, plus the derived ones |
| RfProperties.DeriveValid | preprocess.py:579-674 | rfPreProc's frame keeps the row count, with one cell per row in every column |
| RfProperties.DeriveOutcome | preprocess.py:668-672 | the outcome label never survives, and its code is present whenever there are several rows |
| RfProperties.DeriveKeeps | preprocess.py:579-674 | a column rfPreProc neither consumes nor derives keeps its cells |
| RfProperties.SectionLookup | preprocess.py:595-659 | every section column reaches the output unchanged |
| RfProperties.OrderRow | preprocess.py:587 | in every row, applicationOrderShifted is the shifted order |
| RfProperties.QualificationRow | preprocess.py:595-606 | in every row, the three tiers are the tiers of the codes, with their mean and distance |
| RfProperties.OccupationRow | preprocess.py:611-614 | in every row, the two income tiers are the tiers of the codes, with their mean and distance |
| RfProperties.RateRow | preprocess.py:635-640 | in every row, each approval rate, performance index and credit-load reduction is what its formula gives |
| RfProperties.ActivityRow | preprocess.py:641-652 | in every row, the evaluation rates and the inactivity flag are what their formulas give |
| RfProperties.EconRow | preprocess.py:655-659 | in every row, the stress index, the economy flag and the year are what their formulas give |
| RfProperties.TargetRow | preprocess.py:668-669 | with several rows, each row's outcome code is the targetMap code of its label |
| Scaling.Present | preprocess.py:695 | the present values of a column are exactly the numbers it holds |
| Scaling.Least | preprocess.py:695 | the smallest present value, which is one of them |
| Scaling.Greatest | preprocess.py:695 | the largest present value, which is one of them |
| Scaling.Fit | preprocess.py:694-695 | a fitted scaler's bounds are values of the column that enclose all its present values; it has none when no value is present |
| Scaling.TransformCell | preprocess.py:690 | the transform gives a number exactly for a present value and a fitted scaler |
| Scaling.TransformColumn | preprocess.py:690 | the transform is applied cell by cell, keeping the column's length |
| Scaling.TransformWithinRange | preprocess.py:690 | a value inside the fitted range maps into [0, 1]; the minimum maps to 0 and, when the range is not a single point, the maximum to 1 |
| Scaling.FitTransformUnitRange | preprocess.py:695 | fit_transform maps every present value of the column into [0, 1] |
| Scaling.TransformMonotone | preprocess.py:690 | the transform keeps the order of values |
| Scaling.TransformExtrapolates | preprocess.py:690 | a one-row value outside the fitted range maps outside [0, 1], without clipping |
| Scaling.FitStableInsideRange | preprocess.py:688-696 | adding a value inside the fitted range refits the same scaler, so a one-row transform matches a refit |
| Scaling.ScalerStore.constructor | preprocess.py:683 | the store starts empty |
| Scaling.ScalerStore.AddGetScaleCol | preprocess.py:685-696 | one row: transform with the stored scaler, or skip and keep the store. Several rows: fit, transform and store. No rows or a missing column: failure |
| AnnScaling.ScaleOne | preprocess.py:685-696 | the column addGetScaleCol leaves behind keeps the column's length |
| AnnScaling.Scale | preprocess.py:712-831 | scaling keeps every column label, and columns annPreProc does not scale are untouched |
| AnnScaling.Fits | preprocess.py:712-831 | the scalers stored are exactly those of the scaled columns |
| AnnScaling.ScaleMerge | preprocess.py:712-831 | scaling a union of columns is the union of the scaled parts |
| AnnScaling.FitsMerge | preprocess.py:712-831 | the scalers fitted on a union of columns are the union of the fitted parts |
| AnnScaling.ScaledUnitRange | preprocess.py:694-695 | with several rows, every present value of a scaled column lands in [0, 1] |
| AnnScaling.ScaledSingleRow | preprocess.py:687-692 | a one-row column uses its stored scaler, and is kept as it is when there is none |
| AnnSpec.NominalAt | preprocess.py:705-769 | the i-th column one-hot encoded is one of the seven nominal columns |
| AnnSpec.OneHotShape | preprocess.py:705-769 | every column get_dummies adds is an indicator of a nominal column, one cell per row |
| AnnSpec.OneHotColumns | preprocess.py:705-769 | every column it holds is an indicator of one of the seven nominal columns, with one cell per row |
| AnnSpec.OrderFeature | preprocess.py:711 | annPreProc adds only applicationOrderShifted here |
| AnnSpec.PreviousQualificationFeature | preprocess.py:722 | annPreProc adds only the previous-qualification tier here |
| AnnSpec.ParentQualificationFeatures | preprocess.py:733-736 | annPreProc adds the parents' two tiers, their mean and their distance |
| AnnSpec.CurricularFeatures | preprocess.py:777-794 | annPreProc adds the rate, evaluation and inactivity columns |
| AnnSpec.AnnDerivesInOrder | preprocess.py:711-838 | annPreProc's derived columns, taken in its order, are rfPreProc's derived columns |
| AnnSpec.QualificationsSplit | preprocess.py:722-736 | the previous and parental qualification features together are rfPreProc's qualification section |
| AnnSpec.ParentQualificationScalable | preprocess.py:737-740 | the parental qualification features hold no text and have one cell per row, so they can be scaled |
| AnnSpec.OccupationScalable | preprocess.py:749-752 | the occupation features can be scaled |
| AnnSpec.CurricularScalable | preprocess.py:796-813 | the curricular features can be scaled |
| AnnSpec.EconScalable | preprocess.py:817-822 | the econ features can be scaled |
| AnnChain.ScaleStep | preprocess.py:685-696 | one addGetScaleCol call succeeds on a one-row frame, or on a frame of several rows that has the column. It then stores the fitted scaler with several rows and leaves the store alone otherwise |
| AnnChain.ScaleNext | preprocess.py:712-831 | after one more call, one more column is scaled and its scaler is stored |
| AnnChain.ScaleFour | preprocess.py:737-740 | four consecutive calls scale four columns and store their four scalers |
| AnnSteps.AnnOrder | preprocess.py:711-713 | the order is replaced by the scaled shifted order; the store gains its scaler with several rows |
| AnnSteps.AnnPreviousQualification | preprocess.py:722-724 | the previous qualification is replaced by its scaled tier; the store gains its scaler with several rows |
| AnnSteps.AddParentQualifications | preprocess.py:733-736 | the four parental qualification features are added |
| AnnSteps.ScaleParentQualifications | preprocess.py:737-740 | the four features are scaled in place, and their scalers are stored with several rows |
| AnnSteps.AnnParentQualifications | preprocess.py:733-742 | the parents' codes are replaced by the scaled features; the store gains their scalers |
| AnnSteps.AddOccupations | preprocess.py:745-748 | the four parental occupation features are added |
| AnnSteps.ScaleOccupations | preprocess.py:749-752 | the four features are scaled in place, and their scalers are stored with several rows |
| AnnSteps.AnnOccupations | preprocess.py:745-754 | the parents' occupation codes are replaced by the scaled features; the store gains their scalers |
| AnnSteps.AddCurricular | preprocess.py:777-794 | the rate, evaluation and inactivity columns are added |
| AnnSteps.AnnCurricular | preprocess.py:777-813 | the curricular features are added; the twelve inputs and four of the new columns are scaled, and their scalers stored |
| AnnSteps.AddEcon | preprocess.py:816-817 | the stress index is added and scaled |
| AnnSteps.AddEconFlags | preprocess.py:818-821 | the economy flag and the year are added |
| AnnSteps.AnnEcon | preprocess.py:816-831 | the econ features are added; the year and the three indicators are scaled, and their scalers stored |
| AnnPipeline.DummiesStep | preprocess.py:705 | one get_dummies call moves the frame to the next stage: one more column encoded |
| AnnPipeline.ScaleInputStep | preprocess.py:727 | scaling an input column in place moves the frame to the next stage, or fails with several rows and the column absent |
| AnnPipeline.StageOrder | preprocess.py:711-713 | the order step moves the frame to the next stage; it fails on an empty frame |
| AnnPipeline.StagePreviousQualification | preprocess.py:722-724 | the previous-qualification step moves the frame to the next stage |
| AnnPipeline.StageParentQualifications | preprocess.py:733-742 | the parental qualification step moves the frame to the next stage |
| AnnPipeline.StageOccupations | preprocess.py:745-754 | the parental occupation step moves the frame to the next stage |
| AnnPipeline.StageCurricular | preprocess.py:777-813 | the curricular step moves the frame to the next stage |
| AnnPipeline.StageEcon | preprocess.py:816-831 | the econ step moves the frame to the next stage |
| AnnPipeline.StageTarget | preprocess.py:834-838 | the outcome step adds its code with several rows and drops the label |
| AnnStages.StageLookup | preprocess.py:701-840 | a column no step has touched still holds its input cells |
| AnnStages.StageDummies | preprocess.py:705 | get_dummies on an untouched column drops it and adds its indicators to the stage |
| AnnRun.ThroughMaritalStatus | preprocess.py:702-705 | after the rename and the first encoding, the frame is the first stage and the store is unchanged |
| AnnRun.ThroughApplicationMode | preprocess.py:708 | after the second encoding, the frame is the next stage |
| AnnRun.ThroughApplicationOrder | preprocess.py:711-713 | the run so far succeeds exactly when the frame has rows, and then the frame is the next stage |
| AnnRun.ThroughCourse | preprocess.py:716 | the run so far succeeds exactly when the frame has rows; after the course encoding the frame is the next stage |
| AnnRun.ThroughDaytimeEveningAttendance | preprocess.py:719 | the run so far succeeds exactly when the frame has rows; after the attendance encoding the frame is the next stage |
| AnnRun.ThroughPreviousQualification | preprocess.py:722-724 | the run so far succeeds exactly when the frame has rows; after the previous-qualification step the frame is the next stage |
| AnnRun.ThroughPreviousQualificationGrade | preprocess.py:727 | the run so far succeeds exactly with one row, or with several rows and the grade column present; the grade is then scaled in place |
| AnnRun.ThroughNationality | preprocess.py:730 | same success condition as the step before; after the nationality encoding the frame is the next stage |
| AnnRun.ThroughParentQualifications | preprocess.py:733-742 | same success condition; after the parental qualification step the frame is the next stage |
| AnnRun.ThroughParentOccupations | preprocess.py:745-754 | same success condition; after the parental occupation step the frame is the next stage |
| AnnRun.ThroughAdmissionGrade | preprocess.py:757 | the run so far succeeds exactly with one row, or with several rows and both grade columns present; the admission grade is then scaled in place |
| AnnRun.ThroughGender | preprocess.py:766 | same success condition; after the gender encoding the frame is the next stage |
| AnnRun.ThroughScholarshipHolder | preprocess.py:769 | same success condition; after the scholarship encoding all seven nominal columns are encoded |
| AnnRun.ThroughAgeAtEnrollment | preprocess.py:772 | the run so far succeeds exactly when annPreProc does; the age is then scaled in place |
| AnnRun.ThroughCurricularUnits | preprocess.py:777-813 | succeeds exactly when annPreProc does; after the curricular step the frame is the next stage, and the store is unchanged with at most one row |
| AnnRun.ThroughEcon | preprocess.py:816-831 | succeeds exactly when annPreProc does; after the econ step the frame is the next stage |
| AnnRun.ThroughTarget | preprocess.py:834-838 | succeeds exactly when annPreProc does; after the outcome step the frame is the last stage, with every derived column added |
| AnnRun.AnnDone | preprocess.py:840 | the last stage is AnnFeatures, and the store holds the old scalers plus AnnFits |
| AnnRun.AnnRenamed | preprocess.py:705-840 | on the renamed frame, the run returns AnnFeatures exactly when it succeeds; the store is unchanged with at most one row |
| AnnRun.AnnPreProc | preprocess.py:701-840 | annPreProc succeeds exactly on one row, or on several rows with the three grade columns. Its result is AnnFeatures of the renamed frame and the store as it was. The store is unchanged with one row, and gains AnnFits with several. The caller's frame ends renamed |
| AnnProperties.NominalIndex | preprocess.py:705-769 | every nominal column has its own position in the encoding order |
| AnnProperties.NominalAtInjective | preprocess.py:705-769 | the seven columns annPreProc encodes are distinct |
| AnnProperties.OneHotAbsent | preprocess.py:705-769 | no encoding step adds an indicator of a column encoded later |
| AnnProperties.OneHotLookup | preprocess.py:705-769 | the indicators of each nominal column are the ones get_dummies made from that column |
| AnnProperties.AnnFinished | preprocess.py:701-840 | annPreProc's frame is rfPreProc's frame without the nominal columns, scaled, plus the indicator columns |
| AnnProperties.AnnColumns | preprocess.py:701-840 | annPreProc's columns are rfPreProc's minus the nominal ones, plus the indicators; no nominal column is left |
| AnnProperties.AnnKeepsUnscaled | preprocess.py:701-840 | a column annPreProc neither encodes nor scales holds what rfPreProc computes |
| AnnProperties.AnnScalesDerived | preprocess.py:711-831 | every scaled column holds rfPreProc's column, scaled, so features are derived before scaling |
| AnnProperties.AnnUnitRange | preprocess.py:694-695 | with several rows, every present value of a scaled column ends in [0, 1] |
| AnnProperties.AnnIgnoresStore | preprocess.py:693-696 | with several rows, the result does not depend on the store's previous content |
| AnnProperties.AnnSingleRow | preprocess.py:687-692 | with one row, a scaled column uses its stored scaler, and is kept unscaled when there is none |
| AnnProperties.AnnIndicators | preprocess.py:705-769 | each observed value of a nominal column has an indicator column marking its rows |
| AnnProperties.AnnOneHotRow | preprocess.py:705-769 | in every row, exactly the indicator of the row's value is 1, and none is when the value is missing |

## Left out

- Imports, model loading and prediction calls (preprocess.py:1-37) are not part of this model. The same goes for the terminal colour and font constants (preprocess.py:546-574).
- The binary yes/no display tables (preprocess.py:479-499) and the other code-to-label tables are modelled as constants. No operation of the core reads their labels.
- Floating point is modelled as exact real arithmetic. The keys of econ_to_year are matched by exact equality, as Python compares floats; rounding in the rates, means and min-max transform is not modelled.
- Column order is not modelled, because frames are maps from label to cells. Duplicate column labels are excluded by `RenameDefined`, since pandas would keep both.
- A nominal code that collides with a label created by get_dummies is not modelled. Labels of the form `<column>_<code>` are a separate kind of label here.
- `MinMaxScaler` is modelled by its definition:
  - minimum and maximum over the present values, with missing values ignored;
  - a zero range maps values to `x - min`;
  - no clipping.
  scikit-learn's internal validation, the warnings it prints and its float dtype handling are not modelled.
- The warning `addGetScaleCol` prints when it skips a column (preprocess.py:692) is not modelled. Skipping it changes no state.
- The `Int64` cast of the outcome code is modelled as a whole number, or a missing value for an unknown label.
- Pipelines.RfPreProc: a missing input column or a text value in an arithmetic column is excluded by the precondition, not modelled as pandas' KeyError or TypeError.
- Pipelines.HgbPreProc: its preconditions have the same restriction as rfPreProc's.
- AnnRun.AnnPreProc: the same restriction applies. With no rows, the first `addGetScaleCol` raises before storing anything, and the contract states that the store is unchanged. With several rows and a missing grade column, the call raises after storing the scalers of the columns scaled before that grade; the store after that raise is not stated. The precondition also asks that a grade column (previousQualificationGrade, admissionGrade, ageAtEnrollment) hold no text whenever it is present. The source is more permissive in one case: with one row and no stored scaler for that grade, addGetScaleCol only prints and skips, so annPreProc returns normally with the text left in place. The model does not cover that input, because the readiness condition of the whole chain does not depend on the store.
- AnnRun.AnnRenamed: the same exclusion of a text grade column in a one-row frame without a stored scaler for it.
- Scaling.ScalerStore.AddGetScaleCol: a text column is excluded by the precondition rather than raising.
- The caller's frame is changed in place only by the rename and the first column assignment, since later statements rebind the local name. That final state is returned as `inputAfter`. Aliasing of other references to the same frame object is not modelled.
- The specification says the one-hot universe comes from the full code tables. The code uses `pd.get_dummies`, which creates indicators only for observed values, and the model follows the code.
- The specification also describes a later alignment of columns to a frozen schema, with zero fill and imputation. That is not in `preprocess.py` and is not part of this model.
- Concurrency around the global scaler store is not modelled; each call runs alone.
