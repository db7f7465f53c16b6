# ECP5 DSP configuration fuzzers, modelled in Dafny

Project Trellis documents the ECP5 bitstream by fuzzing. For each DSP
primitive there is a fuzzer script: MULT9 (`078-mult9_config`), ALU24
(`079-alu24_config`) and PRADD9 (`080-pradd9_config`). Each script does four
things:

- It picks the representative DSP block group of the device and lists the 18
  configuration tiles of that group (`dsp_tiles_for`).
- It places one or two primitive instances at fixed sites in that group (the
  `loc` table).
- It creates one job for each instance, with a `FuzzConfig` of its own.
- It runs `per_job` on every job. `per_job` builds one baseline bitstream from
  the empty template. It then switches the job to the DSP template and asks the
  enum-setting fuzzer about every configuration field. Each request carries the
  field's candidate values and a context function (`get_substs`) that renders
  the design for one candidate.

The three scripts are copies of one pattern. This model is a single
parameterised one: `Primitive` selects a table of per-primitive data (sites,
labels, modes, registers and extra fields), and all of the control flow is
shared.

Modules, in dependency order:

- `Results` (results.dfy): the error of an unsupported device, with `Option` and `Result`.
- `Text` (text.dfy): decimal rendering of naturals (`"{}".format(n)`),
  `",".join`, `split`, and distinctness of sequences.
- `Devices` (devices.dfy): the device-to-group map, tile names, and `dsp_tiles_for` as a method with its loop.
- `Primitives` (primitives.dfy): the per-primitive tables, copied from the three scripts.
- `Substs` (substs.dfy): `get_substs` and the context functions. A context
  function is a value `ContextFn` that records which field it varies, in place
  of a Python closure.
- `Sweeps` (sweeps.dfy): the ordered list of sweeps of one job, and its field names.
- `Fuzzer` (fuzzer.dfy): the `FuzzConfig` class and `per_job` as a method. It
  also holds the construction of the jobs and the run over all jobs. Calls to
  the build tool and to the enum-setting fuzzer are appended, with their
  arguments, to the configuration's `trace`.
- `JobTraces` (jobtrace.dfy): what a job's trace promises. There is one
  baseline, built first. Every call uses that baseline and the flag `False`.
  Field names are distinct. Contexts change only the swept field. Candidate
  lists are duplicate-free.

## Model

Paths are relative to the repository root. `M` rows cite
`fuzzers/ECP5/078-mult9_config/fuzzer.py`; the ALU24 and PRADD9 scripts repeat
the shared code at the lines cited in their own rows.

| member | source | states |
|---|---|---|
| Devices.DspBase | fuzzers/ECP5/078-mult9_config/fuzzer.py:15-20 | a base exists exactly for LFE5U-25F, LFE5U-85F and LFE5UM5G-85F; any other device yields `UnsupportedDevice(device)` |
| Devices.SharedGeometry | fuzzers/ECP5/078-mult9_config/fuzzer.py:15-18 | LFE5U-25F maps to row 13, column 4; both 85k parts map to row 34, column 58 |
| Devices.DspTilesFor | fuzzers/ECP5/078-mult9_config/fuzzer.py:10-27 | succeeds exactly on the supported devices, fails with the unsupported-device error otherwise, and on success returns the 18-tile group of the device's base |
| Devices.GroupTiles | fuzzers/ECP5/078-mult9_config/fuzzer.py:22-27 | the append loop produces, for each of the 9 columns, the primary tile and then the secondary tile |
| Devices.TileGroupColumns | fuzzers/ECP5/078-mult9_config/fuzzer.py:22-27 | entry 2i is `MIB_R{r}C{c0+i}:MIB_DSP{i}` and entry 2i+1 is `MIB_R{r}C{c0+i}:MIB2_DSP{i}` |
| Devices.TileNameInjective | fuzzers/ECP5/078-mult9_config/fuzzer.py:25-26 | within a row, a tile name determines its column, its plane and its index |
| Devices.TileGroupDistinct | fuzzers/ECP5/079-alu24_config/fuzzer.py:18-23 | the 18 tiles of a group are pairwise distinct |
| Text.NatToString | fuzzers/ECP5/078-mult9_config/fuzzer.py:25 | the rendering of a number is a non-empty digit string with no leading zero, one digit exactly below 10 |
| Text.DecimalRoundTrip | fuzzers/ECP5/078-mult9_config/fuzzer.py:25 | reading the rendered digits back gives the number |
| Text.NatToStringInjective | fuzzers/ECP5/078-mult9_config/fuzzer.py:25 | different numbers render differently |
| Text.SplitJoin | fuzzers/ECP5/078-mult9_config/fuzzer.py:54 | splitting a comma-join at the commas gives the items back, when no item holds a comma |
| Primitives.LocationsFollowGeometry | fuzzers/ECP5/078-mult9_config/fuzzer.py:32-37 | the site table fails exactly where the tile map fails, with the same error; otherwise site k is `{CELL}_R{row}C{c0 + offset k}` |
| Primitives.Mult9Sites | fuzzers/ECP5/078-mult9_config/fuzzer.py:32-35 | MULT9 sites are `MULT9_R13C4`, `MULT9_R13C5`, `MULT9_R34C58` and `MULT9_R34C59` |
| Primitives.Alu24Sites | fuzzers/ECP5/079-alu24_config/fuzzer.py:28-31 | ALU24 sites are `ALU24_R13C7`, `ALU24_R13C11`, `ALU24_R34C61` and `ALU24_R34C65`, at offsets 3 and 7 |
| Primitives.Pradd9Sites | fuzzers/ECP5/080-pradd9_config/fuzzer.py:27-30 | the PRADD9 site is `PRADD9_R13C4` or `PRADD9_R34C58` |
| Primitives.LabelsFollowOffsets | fuzzers/ECP5/079-alu24_config/fuzzer.py:35-38 | job label k is the cell name, `_`, and the instance's column offset |
| Substs.GetSubsts | fuzzers/ECP5/078-mult9_config/fuzzer.py:49-55 | keys are exactly loc, mode, settings and comment, plus cmodel for PRADD9; loc and mode are passed through; settings is the comma-join of `k=v`; comment is `//` iff the mode is `NONE` and empty otherwise |
| Substs.SettingsRoundTrip | fuzzers/ECP5/078-mult9_config/fuzzer.py:54 | the settings string parses back to the settings, when keys hold no `=` or `,` and values hold no `,` |
| Substs.SingleSetting | fuzzers/ECP5/078-mult9_config/fuzzer.py:54 | one setting serialises to exactly `K=V` |
| Substs.DefaultModeActive | fuzzers/ECP5/080-pradd9_config/fuzzer.py:35-46 | neither the default mode nor the enabled mode of any primitive is `NONE` (PRADD9 has default `PRADD` and enabled mode `PRADD9A`) |
| Substs.ModeContext | fuzzers/ECP5/078-mult9_config/fuzzer.py:62-63 | the mode sweep's context for x has empty settings, mode x, and is commented out exactly when x is `NONE` |
| Substs.FieldContext | fuzzers/ECP5/078-mult9_config/fuzzer.py:70-96 | a field sweep's context for x is the nominal context with only settings changed, to `field=x`; its mode is the default and its comment is empty |
| Sweeps.PlanLength | fuzzers/ECP5/078-mult9_config/fuzzer.py:62-96 | a job issues 1 + 3·registers + 4 + extras sweeps: 26 for MULT9, 19 for ALU24, 25 for PRADD9 |
| Sweeps.RegFieldInjective | fuzzers/ECP5/078-mult9_config/fuzzer.py:70-77 | `REG_{reg}_{signal}` determines the register and the signal |
| Sweeps.RegNamesDistinct | fuzzers/ECP5/078-mult9_config/fuzzer.py:69-78 | the register loop yields pairwise distinct names, each starting with `REG_` |
| Sweeps.DivSweepNames | fuzzers/ECP5/078-mult9_config/fuzzer.py:80-82 | the divider loop yields `CLK0_DIV` to `CLK3_DIV` in order |
| Sweeps.PlanNames | fuzzers/ECP5/078-mult9_config/fuzzer.py:62-96 | the field names are MODE, then the register names, then the divider names, then the extra fields in source order |
| Sweeps.TablesSound | fuzzers/ECP5/080-pradd9_config/fuzzer.py:56-92 | every primitive's registers are distinct, and its extra fields are distinct and cannot clash with MODE, a register field or a divider field |
| Sweeps.Mult9ExtraNames | fuzzers/ECP5/078-mult9_config/fuzzer.py:84-96 | MULT9's extra fields are CAS_MATCH_REG, MULT_BYPASS, GSR, RESETMODE, SOURCEB_MODE, HIGHSPEED_CLK |
| Sweeps.Alu24ExtraNames | fuzzers/ECP5/079-alu24_config/fuzzer.py:80-83 | ALU24's extra fields are GSR and RESETMODE |
| Sweeps.Pradd9ExtraNames | fuzzers/ECP5/080-pradd9_config/fuzzer.py:75-92 | PRADD9's extra fields are GSR, RESETMODE, CAS_MATCH_REG, SOURCEA_MODE, SOURCEB_MODE, FB_MUX, SYMMETRY_MODE, HIGHSPEED_CLK |
| Sweeps.FieldNamesDistinct | fuzzers/ECP5/078-mult9_config/fuzzer.py:62-96 | no field is swept twice in a job |
| Fuzzer.FuzzConfig.constructor | fuzzers/ECP5/078-mult9_config/fuzzer.py:40-41 | a configuration holds its job, family, device, template and tiles, and has made no calls |
| Fuzzer.FuzzConfig.BuildDesign | fuzzers/ECP5/078-mult9_config/fuzzer.py:59 | a build records its template and context and returns a fresh artifact; the template is unchanged |
| Fuzzer.FuzzEnumSetting | fuzzers/ECP5/078-mult9_config/fuzzer.py:62-63 | a fuzz call is recorded with the configuration's current template and all its arguments |
| Fuzzer.SweepRegister | fuzzers/ECP5/078-mult9_config/fuzzer.py:70-78 | one register issues its clock, clock-enable and reset sweeps, in that order |
| Fuzzer.SweepRegisters | fuzzers/ECP5/078-mult9_config/fuzzer.py:65-78 | the register loop appends exactly the register sweeps, in order |
| Fuzzer.SweepDividers | fuzzers/ECP5/078-mult9_config/fuzzer.py:80-82 | the divider loop appends exactly the four divider sweeps, in order |
| Fuzzer.SweepExtras | fuzzers/ECP5/078-mult9_config/fuzzer.py:84-96 | the remaining calls append exactly the primitive's extra sweeps, in order |
| Fuzzer.PerJob | fuzzers/ECP5/078-mult9_config/fuzzer.py:57-96 | the job's trace gains exactly its job trace: the baseline build from the initial template with `{}`, then every sweep on `dspconfig.ncl`; the template ends as `dspconfig.ncl` |
| Fuzzer.NewJobs | fuzzers/ECP5/078-mult9_config/fuzzer.py:39-42 | one job per site and label, each with a new configuration of its own on `empty.ncl` |
| Fuzzer.MakeJobs | fuzzers/ECP5/078-mult9_config/fuzzer.py:30-42 | fails with the unsupported-device error exactly off the supported devices; otherwise the jobs match the site and label tables and carry the device's tile group |
| Fuzzer.RunJobs | fuzzers/ECP5/078-mult9_config/fuzzer.py:98 | running the jobs leaves each configuration with its own job's trace and nothing from another job |
| Fuzzer.RunFuzzer | fuzzers/ECP5/078-mult9_config/fuzzer.py:45-98 | end to end, every job's trace is its baseline build from `empty.ncl` followed by its sweeps |
| JobTraces.BaselineOnceFirst | fuzzers/ECP5/078-mult9_config/fuzzer.py:59-63 | the first call is the only build, from the initial template with `{}`; every later call is a fuzz call on `dspconfig.ncl` with that baseline and `False` |
| JobTraces.TraceLength | fuzzers/ECP5/079-alu24_config/fuzzer.py:55-83 | a job makes 27, 20 or 26 calls for MULT9, ALU24 or PRADD9 |
| JobTraces.TraceFields | fuzzers/ECP5/078-mult9_config/fuzzer.py:62-96 | call k reports field k of the plan, prefixed with the job label and `.` |
| JobTraces.TraceFieldsDistinct | fuzzers/ECP5/078-mult9_config/fuzzer.py:62-96 | no two calls of a job report the same field |
| JobTraces.TraceContexts | fuzzers/ECP5/078-mult9_config/fuzzer.py:49-96 | the MODE call offers `NONE` and the enabled mode and is the only call that can comment the instance out; every other context is the nominal one with settings `field=x` |
| JobTraces.FirstRegisterCall | fuzzers/ECP5/080-pradd9_config/fuzzer.py:60-63 | the second call sweeps the first register's clock over the five clock choices |
| JobTraces.Mult9SmallDeviceSites | fuzzers/ECP5/078-mult9_config/fuzzer.py:32-33 | on LFE5U-25F the MULT9 sites are `MULT9_R13C4` and `MULT9_R13C5` |
| JobTraces.Mult9FirstJobCalls | fuzzers/ECP5/078-mult9_config/fuzzer.py:57-72 | MULT9_0 builds from `empty.ncl`, sweeps MODE over `NONE` and `MULT9X9D`, then sweeps `REG_INPUTA_CLK` with settings `REG_INPUTA_CLK=CLK2` for CLK2 |
| JobTraces.SignalListsClear | fuzzers/ECP5/078-mult9_config/fuzzer.py:66-82 | the clock list has five values starting with NONE, the enable and reset lists four, the divider list two, each without repeats |
| JobTraces.Mult9ValuesClear | fuzzers/ECP5/078-mult9_config/fuzzer.py:84-96 | every MULT9 extra sweep has at least two distinct candidates |
| JobTraces.Alu24ValuesClear | fuzzers/ECP5/079-alu24_config/fuzzer.py:80-83 | every ALU24 extra sweep has at least two distinct candidates |
| JobTraces.Pradd9ValuesClear | fuzzers/ECP5/080-pradd9_config/fuzzer.py:75-92 | every PRADD9 extra sweep has at least two distinct candidates |
| JobTraces.CandidatesClear | fuzzers/ECP5/080-pradd9_config/fuzzer.py:53-92 | every sweep of a job has at least two candidates and none twice |

## Left out

- Reading `TRELLIS_DEVICE` from the environment: the device is a parameter of
  `MakeJobs` and `RunFuzzer`. The default `LFE5U-25F` is not modelled.
- `pytrellis.load_database` and `FuzzConfig.setup`: side effects on the
  database and the file system, in libraries that are not part of this model.
- `build_design`: the synthesis and place-and-route run is not modelled. A
  build returns an artifact known only by its job and the build's position in
  the trace.
- `fuzz_enum_setting`: the bit diffing is not modelled. Only the arguments of
  each call are recorded.
- `fuzzloops.parallel_foreach`: the jobs run one after the other.
  `RunJobs` states that each job's trace depends only on that job. Thread
  scheduling is not modelled.
- The `__main__` entry points and the module-level globals (`DEVICE`, `dsp_tiles`, `jobs`).
- Closures: a context function is a value that records the field it varies.
  The source's lambdas capture `reg` and `clk` by reference. That is correct
  only because the fuzzer calls them before the loop moves on. The model does
  not capture this late binding.
- The straight-line calls after the divider loop are issued by a loop over a
  per-primitive table. The table keeps the source's order and values.
- PRADD9's job tuple carries its cmodel (`PRADD9`) and enabled mode
  (`PRADD9A`). The model takes both from the primitive's table.
- SettingsRoundTrip: stated only for settings whose keys hold no `=` or `,`
  and whose values hold no `,`. Every context in the scripts meets this.
- Some descriptions of these fuzzers flag the MODE sweep as structural
  (`True`). The code passes `False` on every call, MODE included. The model
  follows the code (`BaselineOnceFirst`).
- PRADD9's non-MODE sweeps use the default mode `PRADD`, not the `PRADD9A`
  that the MODE sweep enables. The model states this as written
  (`DefaultMode`, `FieldContext`).
