# Volume bookkeeping of the covid19huc Opentrons protocols

The covid19huc repository holds Opentrons liquid-handling protocols for
RNA extraction and qPCR set-up, plus the scripts that prepare a run. Behind
the robot calls sits a small layer of volume bookkeeping and arithmetic,
pasted into every protocol with small changes. This project models that
layer in Dafny and proves what it does.

- **Reservoir bookkeeping** (`reservoir.dfy`). A `Reagent` class with the
  current reservoir column, the volume left in it and the volumes abandoned
  on a column change. `calc_height` is the `CalcHeight` method. Its effect
  is given as a pure `Draw`/`Run` over a `Tank` value, with lemmas about
  chains of draws.
- **Splitting** (`splitting.dfy`). `divide_volume` and `divide_destinations`.
- **Transfer sequencing** (`transfers.dfy`, `actions.dfy`). `custom_mix`,
  `move_vol_multichannel` and `distribute_custom` are methods that return
  the trace of pipette calls they make. A `Dialect` records how one file's
  copy differs from the others.
- **Step loops** (`steps.dfy`, `protocols.dfy`). The generic
  "destination column × volume list" loop that calls `calc_height`, remixes
  a newly opened column and transfers. Each file's loops are instances of it,
  with their end states computed from the files' own constants.
- **qPCR set-up** (`qpcr.dfy`, `mastermix.dfy`). The master-mix tables,
  `MMIX_make`, making the master mix (step 1), `size_transfer`, the control
  wells and the multi-dispense of the mix.
- **Layout** (`layout.dfy`).
  - Reservoir columns derived from capacity, and the reservoir slices.
  - The sample-rack table, the rack count and the sample pairing.
  - The tip counter (`pick_up`) and the lysis wait clamp.
- **Run preparation** (`recipe.dfy`).
  - `generate_recipe` in its three copies, and sample-count validation and
    correction.
  - The `select_protocol_type` result.
  - `rep_data` and the `update_files` substitutions.

Wells are abstract identifiers (`WellId`). Volumes and heights are `real`.
Volumes the source computes in integers are `nat`.

## Model

| member | source | states |
|---|---|---|
| Reservoir.Reagent.constructor | Homebrew_viral_protocol/B_station.py:84-107 | The fixed properties are stored as given, and `vol_well_original` is set once to `reagent_reservoir_volume / num_wells`. It is a `const`, so nothing reassigns it. |
| Reservoir.Reagent.Fill | Homebrew_viral_protocol/B_station.py:188-193 | The first column starts full (`vol_well = vol_well_original`). Nothing else changes. |
| Reservoir.Reagent.PlaceIn | KingFisher_viral/KB_plates_prep.py:288-300 | The reagent is given its reservoir columns. The bookkeeping is unchanged. |
| Reservoir.Reagent.CalcHeight | Homebrew_viral_protocol/B_station.py:261-291 | The column changes iff `vol_well < aspirate + extra`, so equality keeps the column. On a change: `col` goes up by exactly 1, the old `vol_well` is appended to `unused`, and the volume restarts from `vol_well_original`. Either way the draw is then subtracted. The height is the floored pickup height of what is left. The new state is `Draw` of the old one. |
| Reservoir.PickupHeight | Homebrew_viral_protocol/B_station.py:274-286 | The height is never below `min_height`. When it is above it, `height·area + v_cono` equals the remaining volume. |
| Reservoir.PickupHeightMonotone | KingFisher_pathogen_core/KB_station.py:234-262 | Less liquid never gives a higher pickup point. |
| Reservoir.DrawKeepsReserve | KingFisher/KC_qPCR_multidispense.py:310-338 | A draw that stays in its column leaves at least the reserve. A draw that moves on records the old volume as abandoned. |
| Reservoir.RunColumns | KingFisher_viral/KB_plates_prep.py:197-227 | Over any chain of draws, columns only move forward, one per abandoned volume, and earlier abandoned volumes are never changed. |
| Reservoir.RunConserves | Automation/base_scripts/Viral_KF/KB_station_viral_template.py:261-289 | Liquid is conserved. The starting volume plus one full column per change, plus what was abandoned before, equals what was drawn plus what is left plus what was abandoned. |
| Reservoir.DrainCycles | KingFisher_pathogen_core/Deprecated/KB_IC_beads.py:201-229 | When `q` equal draws fit in a full column and one more would not, `k·q` draws use `k` columns and abandon the same remainder in each of the first `k − 1`. |
| Reservoir.DrainWithinColumn | KingFisher_viral/deprecated/KB_IC.py:173-201 | Equal draws that leave the reserve on the last one never change column. |
| Reservoir.SourceWell | Homebrew_viral_protocol/B_station.py:528 | The caller's `reagent_reservoir[col]` lookup is defined only inside the reservoir, and its result is a reservoir column. |
| Splitting.DivideVolume | KingFisher_viral/KC_qPCR_singledispense.py:285-292 | For a positive volume and capacity there are `ceil(v/max)` parts. They sum to `v` and all but the last equal `ceil(v/n)`. A zero volume is `None`, where Python divides by zero. |
| Splitting.DivideVolumeBounds | KingFisher/KC_qPCR_multidispense.py:205-211 | Every part is in `(0, max]`, and the remainder part is no larger than the others. |
| Splitting.DivideVolumeExamples | KingFisher_pathogen_core/KB_station.py:264-271 | `divide_volume(260,180) = [130,130]` and `divide_volume(300,180) = [150,150]`. |
| Splitting.ChunksSpec | KingFisher_viral/KC_qPCR_singledispense.py:294-298 | The chunks concatenate back to the list. Every chunk has `n` entries except the last, which has 1 to `n`. There are `ceil(len/n)` chunks. The generator copy (KingFisher_viral/deprecated/KB_IC.py:234-237) yields the same slices. |
| Transfers.CustomMix | Homebrew_viral_protocol/B_station.py:233-259 | The loop issues exactly the file's `custom_mix` trace: at least `2·rounds + 2` calls, starting with the trap-volume aspirate at the source height. |
| Transfers.MixHeightGuard | KingFisher_pathogen_core/Deprecated/KB_IC_beads.py:183-184 | A `<= 0` guard with a positive default never dispenses at or below the bottom. An `== 0` guard replaces exactly 0 and passes negative heights through. A positive height is kept. |
| Transfers.MixPhaseBalanced | KingFisher_viral/KB_plates_prep.py:179-189 | The mix phase has `rounds + 1` aspirates and `rounds + 1` dispenses. Each side moves `1 + rounds·vol`. |
| Transfers.MixPhasePlaces | KingFisher_viral/deprecated/KB_IC.py:154-165 | Every call of the mix phase is an aspirate at the source height or a dispense at the (defaulted) mix height, in the mixed well. |
| Transfers.MoveVol | Homebrew_viral_protocol/B_station.py:197-231 | The loop issues the file's `move_vol_multichannel` trace: the optional rinse, then the main aspirate of `vol` at the pickup height with the reagent's rate, then the rest. |
| Transfers.TransferBalanced | Automation/base_scripts/Viral_KF/KA_sample_prep_template.py:158-164 | The transfer moves `vol + air_gap` in one dispense. The air-gap aspirate is issued iff `air_gap_vol != 0`, so with no air gap the dispense is `vol`. |
| Transfers.RinseBeforeTransfer | Automation/base_scripts/Viral_KF/KB_station_viral_template.py:206-209 | A rinse is the file's mix in the source. It has `reagent.rinse_loops` rounds where the file says so, ends at the default mix height, and comes before the main aspirate. |
| Transfers.PostStepsOrder | KingFisher/KC_qPCR_multidispense.py:271-278 | The order after the pause in each file: blow-out, then the post air gap second (an aspirate in the viral template; a dispense in B_station and the pathogen stations) or last (a dispense in the multi-dispense and plates scripts; an aspirate in the single-dispense, sample-prep and IC scripts). |
| Transfers.DistributeCustom | KingFisher_viral/KC_qPCR_singledispense.py:300-321 | One draw of `len(dest)·volume + extra` at the pickup height. The returned volume is what was dispensed minus the air gaps, i.e. `len(dest)·volume`. Total aspirated is delivered + extra + one more air gap than destinations. |
| Transfers.DistributeBalanced | KingFisher/KC_qPCR_multidispense.py:221-242 | `len(dest) + 2` aspirates and `2·len(dest)` dispenses. Each destination receives `volume` behind an air gap. |
| Transfers.VisitsInOrder | KingFisher_viral/deprecated/KB_IC.py:203-222 | The per-destination loop visits the destinations in order, each once. The IC copy blows out twice inside each visit. |
| Steps.FindSide | Homebrew_viral_protocol/B_station.py:304-312 | −1 for even columns, +1 for odd ones, and nothing else. |
| Steps.NextRinse | KingFisher_pathogen_core/Deprecated/KB_IC_beads.py:365-371 | The loop's `rinse` update gives the rinse the loop's rule prescribes at that iteration. |
| Steps.Iteration | KingFisher_pathogen_core/Deprecated/KB_IC_beads.py:428-446 | One iteration charges exactly one `Draw` and makes the call that `CallAt` prescribes for it. |
| Steps.RunStep | KingFisher_pathogen_core/KB_station.py:480-500 | The nested loop ends with the reagent at the chained draws' state. Its calls are `Calls` and its pipette trace is `TraceUpTo`. |
| Steps.CallShape | Automation/base_scripts/Viral_KF/KB_station_viral_template.py:741-759 | Each call passes: its destination and volume; a source the reagent's current column selects; a height never below the floor, or the loop's fixed height; a remix of the new column iff it changed; and the loop's rinse. |
| Steps.CallsFollowSettings | Automation/base_scripts/Viral_KF/KB_station_viral_template.py:648-690 | Every call of a finished loop follows the loop's settings. |
| Steps.CallsInOrder | KingFisher_pathogen_core/KB_station.py:422-440 | The calls are the iterations `(0,0), (0,1), …` in order, `len(vols)` per destination column. |
| Steps.UntilClearedRinsesEveryColumn | Homebrew_viral_protocol/B_station.py:636-656 | With the `i != 0 and j != 0` guard and a one-entry volume list, every column's transfer rinses. |
| Steps.FirstOnlyRinsesOnce | Homebrew_viral_protocol/B_station.py:636-652 | With the `or` guard, a transfer rinses iff it is the first and the reagent rinses. |
| Protocols.FreshRun | Homebrew_viral_protocol/B_station.py:84-107 | A reagent built, filled and placed as the scripts do runs one step loop and ends at the loop's chained draws. |
| Protocols.RunToEnd | KingFisher_pathogen_core/KB_station.py:405-445 | A loop whose end state is known leaves the reagent there, with one call per column and volume, each following the settings. |
| Protocols.StepCycles | KingFisher_pathogen_core/Deprecated/KB_IC_beads.py:357-365 | `k·q` equal draws, where a column gives exactly `q` of them, end in column `k − 1` with the same remainder abandoned in each earlier column. |
| Protocols.BeadsIcLysisRun | KingFisher_pathogen_core/Deprecated/KB_IC_beads.py:344-389 | 27000 over 3 wells and 24 draws of 1040 end with `col = 2`, `unused = [680, 680]` and 680 left. A transfer rinses iff its column is new or it is in the first destination column. |
| Protocols.BeadsIcBeadsRun | KingFisher_pathogen_core/Deprecated/KB_IC_beads.py:410-460 | 25500 over 3 wells ends with `col = 2` and `unused = [180, 180]`. A transfer is preceded by a remix of its own source iff the column changed. Only the first transfer rinses. |
| Protocols.BStationBeadsEnd | Homebrew_viral_protocol/B_station.py:496-544 | Three draws of 160 from 1600 (reserve 10) stay in the one reservoir column. |
| Protocols.BStationWashAsWritten | Homebrew_viral_protocol/B_station.py:625-672 | The wash as written: all three transfers rinse, and 1100 is left in column 0. |
| Protocols.BStationWash | Homebrew_viral_protocol/B_station.py:731-778 | The wash with the intended guard: only the first transfer rinses. Step 11 also touches off after each transfer. |
| Protocols.BStationElutionEnd | Homebrew_viral_protocol/B_station.py:855-898 | Three draws of 400 from 1600 stay in the one column. |
| Protocols.PlatesElutionEnd | KingFisher_viral/KB_plates_prep.py:439-480 | 48 samples: six draws of 400 from 50·48·1.1 never change column and leave 240. |
| Protocols.ViralICRun | KingFisher_viral/deprecated/KB_IC.py:273-310 | Six draws of 80 from 1050 (reserve 5) never change column. Every transfer uses the single well at height 0.2 and none rinses. |
| Protocols.QpcrMasterMixEnd | KingFisher_viral/KC_qPCR_singledispense.py:564-627 | 48 draws of 20 from a 1000 single-well tube (reserve 30) never change column and leave 40. This holds with the P300 (step 2) or the P20 (step 3). |
| Protocols.TemplateBeadsFixedHeight | Automation/base_scripts/Viral_KF/KB_station_viral_template.py:657-673 | In the beads step `calc_height` only keeps the books: every transfer goes in at the fixed 0.2, and an unchanged column is never remixed. |
| Protocols.TemplateBeadsTwoRemix | Automation/base_scripts/Viral_KF/KB_station_viral_template.py:741-759 | Every transfer goes in at 0.7. A column is remixed, at 0.7 and in its own well, exactly when it is newly opened. |
| Protocols.StationLysisEnd | KingFisher_pathogen_core/KB_station.py:405-445 | 13728 per column: 24 draws of 1040 end eleven draws into the second column. |
| Protocols.StationBeadsEnd | KingFisher_pathogen_core/KB_station.py:465-503 | 14352 per column: thirteen draws, then eleven from the second column. |
| Protocols.StationWashEnd | KingFisher_pathogen_core/KB_station.py:504-584 | 10560 per column: three columns, with 960 abandoned in the first two. |
| Protocols.StationFixedPickup | KingFisher_pathogen_core/KB_station.py:527-531 | In steps 2, 5 and 6 the source is a reservoir column chosen by `calc_height`, but the transfer height is always 1. |
| Qpcr.RecipeMatchesVolume | KingFisher_viral/KC_qPCR_singledispense.py:57-58 | Both tables know the same selections. The recipe sums to the per-sample volume iff the selection is not 4 (1 against 40). |
| Qpcr.MmixMake | KingFisher_viral/KC_qPCR_singledispense.py:66-70 | The nested loops make each component's volume times `NUM_SAMPLES·1.1`, recipe by recipe. |
| Qpcr.MakeMatchesAvailable | KingFisher_viral/KC_qPCR_singledispense.py:70-72 | What step 1 mixes adds up to `volume_mmix_available` when the recipe matches its volume. |
| Qpcr.SizeTransferFits | KingFisher/KC_qPCR_multidispense.py:45-58 | `size_transfer · volume ≤ capacity < (size_transfer + 1) · volume`. 180/20 gives 9 and 170/20 gives 8. |
| Qpcr.ControlWellsAreLast | KingFisher_viral/KC_qPCR_singledispense.py:493-494 | The controls are the last two of the first `NUM_SAMPLES` wells. One sample makes the slice empty, which is `None`. |
| Qpcr.DistributeMasterMix | KingFisher/KC_qPCR_multidispense.py:460-490 | Per group, `calc_height` is charged exactly what `distribute_custom` aspirates. That draw comes from the column `calc_height` chose and delivers the draw minus the extra. The tube ends at the chained draws. |
| MasterMix.Portions | KingFisher_viral/KC_qPCR_singledispense.py:530-540 | A component is split by `divide_volume` only when `vol + air_gap > capacity`. The parts sum to the volume and each fits the capacity. |
| MasterMix.MakeMasterMix | KingFisher_viral/KC_qPCR_singledispense.py:525-552 | The component loop emits exactly `MakePlan` and counts one tip per component handled. It completes iff every component has a reagent object in `MMIX_components`. Otherwise it stops at the first component without one, with the earlier components done. |
| MasterMix.TransferComponent | KingFisher_viral/KC_qPCR_singledispense.py:530-540 | One move per portion, in order. |
| MasterMix.PlanCounts | KingFisher_viral/KC_qPCR_singledispense.py:525-552 | Everything moved equals the components' total. One tip is dropped per component. Both guards compare with `len(MMIX_components)`. There is one final mix with `i+1 < len` when the loop reaches the last reagent, and none with `i < len`. |
| MasterMix.MixesAfterLast | KingFisher_viral/KC_qPCR_singledispense.py:542-550 | The single-dispense plan ends with the final mix and a drop, after the last component. |
| MasterMix.MultiAsWrittenNeverMixes | KingFisher/KC_qPCR_multidispense.py:427-446 | `MMIX_components` holds three reagents (:200). The loop handles at most three components. With `i < len(MMIX_components)` it never makes the final mix, and every handled component ends in a drop. |
| MasterMix.MultiAsWrittenSelections | KingFisher/KC_qPCR_multidispense.py:56 | As written, selections 4 and 5 (one and three components) complete without the final mix. Selections 1 to 3 (four, seven and five components) stop after three components, at the fourth component's reagent lookup. |
| MasterMix.MultiCorrectedSelections | KingFisher/KC_qPCR_multidispense.py:427-446 | With the single-dispense copy's reagent list and `i+1 < len` guard, every selection completes with exactly one final mix. |
| Layout.KbStationWellCounts | KingFisher_pathogen_core/KB_station.py:100-155 | `ceil((96+5)·vol/13500)` gives 3 wells for 300, 2 for 260 and 1 for 90. |
| Layout.KbStationSlicesFit | KingFisher_pathogen_core/KB_station.py:337-350 | The five slices of a 12-column row have lengths 3, 4, 2, 2, 1. Each is at least its reagent's well count, and together they are the row. |
| Layout.SlicesContiguous | KingFisher_viral/KB_plates_prep.py:288-300 | Cumulative slicing gives each reagent exactly its `num_wells` columns, contiguous and in order. |
| Layout.PlatesPrepContiguous | KingFisher_viral/KB_plates_prep.py:288-300 | WB1, WB2, Elution and Lysis get consecutive, disjoint slices of their sizes. |
| Layout.GenerateSourceTable | Automation/base_scripts/Viral_KF/KA_sample_prep_template.py:128-137 | The loop returns the racks' wells concatenated in rack order. No racks gives `None`. |
| Layout.FlattenRacksAt | Automation/base_scripts/Viral_KF/KA_sample_prep_template.py:128-137 | Entry `i` of 24-well racks is well `i % 24` of rack `i / 24`. |
| Layout.RackNumCovers | Automation/base_scripts/Viral_KF/KA_sample_prep_template.py:252-257 | For 1 ≤ n ≤ 96 the rack count is 1..4, `24·racks ≥ n`, and one rack fewer would not do. |
| Layout.RackSlotsPrefix | Automation/base_scripts/Viral_KF/KA_sample_prep_template.py:263-266 | The racks take the first `rack_num` of the slots 4, 1, 6, 3. |
| Layout.SamplePairing | Automation/base_scripts/Viral_KF/KA_sample_prep_template.py:296-297 | Sample `i` (well `i % 24` of rack `i / 24`) goes to destination `i`. |
| Layout.TipTrack.PickUp | Automation/base_scripts/Viral_KF/KA_sample_prep_template.py:237-245 | The racks are replaced and the counter reset to 0 iff not simulating and the counter is at its maximum. Then a tip is taken. |
| Layout.TipPerTransfer | Automation/base_scripts/Viral_KF/KA_sample_prep_template.py:311-373 | Steps 1 and 2 count each tip after its drop, so the counter keeps agreeing with the racks. Tips taken minus replacements equals transfers. |
| Layout.TipPerDestinationCountedOnce | Automation/base_scripts/Viral_KF/KA_sample_prep_template.py:386-400 | Step 3 as written takes `n` tips but counts 1. Counter and racks agree afterwards iff `n == 1`. |
| Layout.TipPerDestination | Automation/base_scripts/Viral_KF/KA_sample_prep_template.py:386-400 | Step 3 counting each tip keeps the counter in agreement with the racks. |
| Layout.TipSharedByDestinations | Automation/base_scripts/Viral_KF/KA_sample_prep_template.py:382-400 | Step 3 with one tip for all destinations, dropped after the loop, as the "same tip" comment reads: counting once keeps the counter in agreement with the racks. Exactly one tip leaves the racks. |
| Layout.WaitDelay | KingFisher_pathogen_core/Deprecated/KB_IC_beads.py:385-402 | The wait is `wait_time − min(elapsed, 600)`. It is never negative when `wait_time ≥ 600`. |
| Layout.KbStationVolLists | KingFisher_pathogen_core/KB_station.py:416-418 | With air gap 10 and capacity 180, every bulk step takes the splitting branch, so `vol_list` is always defined. |
| Recipe.VolTotal | Automation/input_file_tecnico.py:58 | A multiple of 100 with `obj·cn ≤ vol_total < obj·cn + 100`. |
| Recipe.NumCells | Automation/input_file_tecnico.py:59 | The fewest 12400 columns holding `obj·cn`. It is zero iff `obj·cn` is zero. |
| Recipe.GenerateRecipe | Automation/multi_well_viral_IC.py:5-18 | The loop's dictionary has exactly the recipe's keys, each with its share. It is `None` exactly when some reagent needs no column, where the script divides by zero. |
| Recipe.RoundedShare | Automation/input_file_tecnico_linux.py:59-67 | In the rounded copies the per-column volume is a multiple of 100, and it is at least `vol_total/num_cells + dead` by less than 100. |
| Recipe.UnroundedShare | Automation/input_file_tecnico.py:54-62 | The first copy's columns hold exactly the rounded total plus the dead volume each. |
| Recipe.MasterMixShare | Automation/multi_well_viral_IC.py:14-17 | MMIX is `obj·(num_samples + 5) + dead` in one column, from the uncorrected count. |
| Recipe.ShareExamples | Automation/input_file_tecnico_linux.py:20-34 | At cn = 96: viral Beads [2800, 1], IC [2500, 1], pathogen Beads [9000, 3], Wtwo [11400, 4]. First copy's pathogen Beads: [25000/3 + 600, 3]. MMIX: [2050, 1] for 96 and [610, 1] for 24. |
| Recipe.ReadSampleCount | Automation/input_file_tecnico.py:92-98 | The first answer with 0 < n ≤ 94 is accepted. `None` iff no answer qualifies. |
| Recipe.CorrectedCount | Automation/input_file_tecnico.py:136 | `ceil(n/8)·8` is a multiple of 8 with `n ≤ c < n + 8`. |
| Recipe.CorrectedCountRange | Automation/input_file_tecnico_linux.py:168 | An accepted count corrects to 8..96, so every reagent with a positive volume gets a column. |
| Recipe.SelectProtocolType | Automation/input_file_tecnico.py:40-52 | The result is ("V", viral path) or ("P", pathogen path), from the first answer that is V or P. `None` iff there is none. |
| Recipe.ReplaceAbsent | Automation/input_file_tecnico.py:64-68 | `str.replace` with an absent non-empty pattern changes nothing. |
| Recipe.ReplaceSelf | Automation/input_file_tecnico_linux.py:69-73 | Replacing a pattern by itself changes nothing. |
| Recipe.RepDataAbsent | Automation/input_file_tecnico.py:64-68 | A template with none of `$num_samples`, `$technician` or `$date` comes back unchanged. |
| Recipe.UpdateFiles | Automation/input_file_tecnico_linux.py:75-89 | The guarded loops give the same text as substituting every key unconditionally. |
| Recipe.GuardIsRedundant | Automation/input_file_tecnico_linux.py:78-81 | A key absent from the text leaves both of its placeholders absent. |
| Recipe.LinuxColumnVolume | Automation/base_scripts/Viral_KF/KB_station_viral_template.py:94 | With the Linux copy's numbers, the template's `reagent_reservoir_volume / num_wells` is the recipe's per-column volume. This holds for the reagents whose `num_wells` comes from the recipe (`$Wone_wells`, `$Wtwo_wells`, `$Elution_wells`, `$IC_wells`, `$Beads_wells`). It does not hold for Lysis and Beadstwo, whose `num_wells` is fixed at 1 and 2 (:127, :177). |
| Recipe.TecnicoColumnVolume | Automation/input_file_tecnico.py:166-169 | With the first copy's numbers, the template's column volume is the per-column volume divided by the column count again, which is less whenever there are several columns. |
| Recipe.TecnicoBeadsShortfall | Automation/input_file_tecnico.py:166-169 | Pathogen Beads at 96 samples: the template sees (25000/3 + 600)/3 per column instead of 25000/3 + 600. |

## Left out

- The Opentrons runtime is not modelled: labware, modules, `Point` geometry, magnet and temperature decks, lights, `ctx.delay`/`pause`/`comment`. Wells are abstract identifiers, and pipette calls are trace entries.
- Time logging, file and folder I/O, Excel reading, `os.system` copying and `scp` are I/O. `update_files` is modelled as string substitution only.
- Number formatting (`str()` of ints and floats) is a function parameter `show`.
- The console loops of `select_protocol_type` and the sample-count prompt read a sequence of answers. They return `None` when the answers run out. The scripts would keep asking.
- Floating point is exact `real` arithmetic. The 1.1 and 1.15 multipliers and the areas are exact, so no result is bit-exact to Python floats. A float `math.ceil` of a quotient is modelled on exact integers or reals.
- Wall-clock durations are a parameter of `Layout.WaitDelay`, with only the clamp arithmetic kept.
- Plotting scripts and the module-level plotting code of `Automation/multi_well_viral_IC.py` only draw reservoir images and are not part of this model.
- The template's ICtwo step draws from `ICtwo.reagent_reservoir[IC.col]`. It is not a separate loop here. Its `IC.col` never moves, which is the single-well case `Protocols.ViralICRun` covers.
- Step loops that call no `calc_height` (B_station steps 1 and 2, the IC steps of the pathogen station, supernatant removal, elution transfers) are not modelled.
- Volumes of master-mix components are `nat` in `MasterMix`. The script's `NUM_SAMPLES·1.1` factors are reals, and `MasterMix` abstracts from them.
- `Reservoir.Reagent.CalcHeight`'s `min_height` and `extra_volume` defaults differ per file. Each loop passes them explicitly.
- `Recipe.GenerateRecipe` takes the recipe as a sequence of distinct keys in insertion order, which is how a Python `dict` iterates.
- MasterMix.MultiAsWrittenNeverMixes: a recipe of more than three components stops at the fourth. The fourth component's tip is picked up before the reagent lookup fails, and the model records neither that pick-up nor the raised `IndexError`. It records only the three components done and a failure flag from `MasterMix.MakeMasterMix`.
- `Transfers.DistributeCustom` with `ControlCopy`: the two blow-outs after each destination stand for a `try`/`except` pair in `KingFisher_viral/deprecated/KB_IC.py:203-222`, of which only one branch runs on the robot. The model keeps both, as the lines read. That file never calls `distribute_custom`, because its call is commented out.
- `Recipe.UpdateFiles` has one `show` for both numbers. It does not distinguish `str(int)` from `str(float)` output.

## Findings

| source | as written | input that shows it | evidently intended | confidence | as-written member | corrected member |
|---|---|---|---|---|---|---|
| KingFisher/KC_qPCR_multidispense.py:441-446 | `if i<len(MMIX_components)` is always true inside the loop | selection 5 (three components, the default) or selection 4 (one component) | final mix after the last component, with the single-dispense copy's `i+1 < len` guard and a reagent list cut to the recipe | high, not executed | MasterMix.MultiAsWrittenNeverMixes | MasterMix.MultiCorrectedSelections |
| Homebrew_viral_protocol/B_station.py:651-652 | `if i != 0 and j!= 0: rinse = False` with a one-entry volume list never fires | wash with 3 columns, `wash1_vol = [100]` | rinse the first time only (the `# Only first time` comment) | high, not executed | Protocols.BStationWashAsWritten | Protocols.BStationWash |
| Automation/input_file_tecnico.py:166-169 | `$key_total_volume` receives the per-column volume | pathogen Beads at 96 samples: 8933.33 written, 3 columns. The station template then computes 2977.78 per column. That template side is inferred: the pathogen template is not part of this model, so it is assumed to divide by `num_wells` as `KB_station_viral_template.py:94` does. The viral recipe's reagents fit one column at 96 samples or fewer, so the viral template sees no shortfall | write per-column × columns, as the Linux copy does | medium, not executed | Recipe.TecnicoBeadsShortfall | Recipe.LinuxColumnVolume |
| Automation/base_scripts/Viral_KF/KA_sample_prep_template.py:386-400 | the p20 counter grows by 1 after the loop, not per destination | 2 or more destinations in step 3 | one of two repairs. Either count each tip after its drop, as steps 1 and 2 do (`Layout.TipPerDestination`). Or, as the step's "everything with the same tip" comment (:382) suggests, keep one tip for all destinations and move the drop after the loop (`Layout.TipSharedByDestinations`). Either repair keeps counter and racks in agreement | medium, not executed | Layout.TipPerDestinationCountedOnce | Layout.TipPerDestination |
