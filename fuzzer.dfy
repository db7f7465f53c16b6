/** One fuzz job end to end: the baseline build, the switch to the DSP template
    and the ordered `fuzz_enum_setting` calls; the construction of the jobs for a
    device; and running every job. The build tool and the enum-setting fuzzer are
    collaborators whose internals are not modelled: each call is recorded, with
    its arguments, in the trace of the job's configuration object. */
module Fuzzer {
  import opened Results
  import opened Devices
  import opened Primitives
  import opened Substs
  import opened Sweeps

  const Family: string := "ECP5"
  /** The template of the baseline design, in which no DSP primitive is placed. */
  const EmptyNcl: string := "empty.ncl"
  /** The template every trial is built from. */
  const DspConfigNcl: string := "dspconfig.ncl"

  /** A bitstream produced by the build tool, known only by which build made it. */
  datatype Bitstream = Bitstream(job: string, serial: nat)

  /** A call made to a collaborator through a job's configuration. */
  datatype Request =
    | Build(ncl: string, substs: map<string, string>, result: Bitstream)
      /** `fuzz_enum_setting(cfg, field, values, context, baseline, flag)`, with
          the template `cfg.ncl` held at the time of the call. */
    | FuzzEnum(ncl: string, field: string, values: seq<string>, context: ContextFn,
               baseline: Bitstream, flag: bool)

  /** The job's `FuzzConfig`: fixed job data, the template it builds from (the
      one field the fuzzer scripts assign), and the calls made through it. */
  class FuzzConfig {
    const job: string
    const family: string
    const device: string
    const tiles: seq<string>
    var ncl: string
    var trace: seq<Request>

    constructor (job: string, family: string, device: string, ncl: string, tiles: seq<string>)
      ensures this.job == job && this.family == family && this.device == device
      ensures this.ncl == ncl && this.tiles == tiles && trace == []
    {
      this.job, this.family, this.device := job, family, device;
      this.ncl, this.tiles := ncl, tiles;
      trace := [];
    }

    /** `cfg.build_design(ncl, substs)`: the bitstream comes back as an opaque
        artifact, and the build is recorded. */
    method BuildDesign(design: string, substs: map<string, string>) returns (b: Bitstream)
      modifies this
      ensures b == Bitstream(job, |old(trace)|)
      ensures trace == old(trace) + [Build(design, substs, b)]
      ensures ncl == old(ncl)
    {
      b := Bitstream(job, |trace|);
      trace := trace + [Build(design, substs, b)];
    }
  }

  /** `nonrouting.fuzz_enum_setting(cfg, field, values, context, baseline, flag)`:
      the call and its arguments are recorded. */
  method FuzzEnumSetting(cfg: FuzzConfig, field: string, values: seq<string>, context: ContextFn,
                         baseline: Bitstream, flag: bool)
    modifies cfg
    ensures cfg.ncl == old(cfg.ncl)
    ensures cfg.trace == old(cfg.trace) + [FuzzEnum(cfg.ncl, field, values, context, baseline, flag)]
  {
    cfg.trace := cfg.trace + [FuzzEnum(cfg.ncl, field, values, context, baseline, flag)];
  }

  /** A job tuple: the primitive's site, its name and its configuration. */
  datatype Job = Job(prim: Primitive, loc: string, name: string, cfg: FuzzConfig)

  /** The call a job makes for one sweep: the field is reported under the job's
      name, the context function binds the swept field, and every call gets
      the job's baseline and `False`. */
  function FuzzRequest(p: Primitive, loc: string, name: string, baseline: Bitstream, sw: Sweep): Request
  {
    FuzzEnum(DspConfigNcl, name + "." + sw.binding.Name(), sw.candidates,
             ContextFn(p, loc, sw.binding), baseline, false)
  }

  function FuzzRequests(p: Primitive, loc: string, name: string, baseline: Bitstream, sws: seq<Sweep>): (r: seq<Request>)
    ensures |r| == |sws|
  {
    seq(|sws|, k requires 0 <= k < |sws| => FuzzRequest(p, loc, name, baseline, sws[k]))
  }

  lemma FuzzRequestsAppend(p: Primitive, loc: string, name: string, baseline: Bitstream, a: seq<Sweep>, b: seq<Sweep>)
    ensures FuzzRequests(p, loc, name, baseline, a + b)
         == FuzzRequests(p, loc, name, baseline, a) + FuzzRequests(p, loc, name, baseline, b)
  {
  }

  /** The calls of a job that builds its baseline from template `ncl0`, gets
      `baseline` back, and then issues the sweeps `sws` in order. */
  function Calls(p: Primitive, loc: string, name: string, ncl0: string, baseline: Bitstream, sws: seq<Sweep>): seq<Request>
  {
    [Build(ncl0, map[], baseline)] + FuzzRequests(p, loc, name, baseline, sws)
  }

  /** Everything one run of `per_job` asks of its collaborators, in order. */
  function JobTrace(p: Primitive, loc: string, name: string, ncl0: string, baseline: Bitstream): seq<Request>
  {
    Calls(p, loc, name, ncl0, baseline, SweepPlan(p))
  }

  /** The body of `for reg in regs`: the register's clock, clock-enable and
      reset sweeps, in that order. */
  method SweepRegister(cfg: FuzzConfig, p: Primitive, loc: string, name: string, baseline: Bitstream, reg: string)
    requires cfg.ncl == DspConfigNcl
    modifies cfg
    ensures cfg.ncl == DspConfigNcl
    ensures cfg.trace == old(cfg.trace)
      + FuzzRequests(p, loc, name, baseline, [RegSweep(reg, 0), RegSweep(reg, 1), RegSweep(reg, 2)])
  {
    var clk, ce, rst := RegField(reg, "CLK"), RegField(reg, "CE"), RegField(reg, "RST");
    FuzzEnumSetting(cfg, name + "." + clk, Clks, ContextFn(p, loc, SetsField(clk)), baseline, false);
    FuzzEnumSetting(cfg, name + "." + ce, Cens, ContextFn(p, loc, SetsField(ce)), baseline, false);
    FuzzEnumSetting(cfg, name + "." + rst, Rsts, ContextFn(p, loc, SetsField(rst)), baseline, false);
    assert FuzzRequests(p, loc, name, baseline, [RegSweep(reg, 0), RegSweep(reg, 1), RegSweep(reg, 2)])
        == [FuzzRequest(p, loc, name, baseline, RegSweep(reg, 0)),
            FuzzRequest(p, loc, name, baseline, RegSweep(reg, 1)),
            FuzzRequest(p, loc, name, baseline, RegSweep(reg, 2))];
  }

  /** Issues the register sweeps: `for reg in regs`. */
  method SweepRegisters(cfg: FuzzConfig, p: Primitive, loc: string, name: string, baseline: Bitstream, regs: seq<string>)
    requires cfg.ncl == DspConfigNcl
    modifies cfg
    ensures cfg.ncl == DspConfigNcl
    ensures cfg.trace == old(cfg.trace) + FuzzRequests(p, loc, name, baseline, RegSweeps(regs))
  {
    for i := 0 to |regs|
      invariant cfg.ncl == DspConfigNcl
      invariant cfg.trace == old(cfg.trace) + FuzzRequests(p, loc, name, baseline, RegSweeps(regs[..i]))
    {
      SweepRegister(cfg, p, loc, name, baseline, regs[i]);
      RegSweepsStep(regs, i);
      FuzzRequestsAppend(p, loc, name, baseline, RegSweeps(regs[..i]),
                         [RegSweep(regs[i], 0), RegSweep(regs[i], 1), RegSweep(regs[i], 2)]);
    }
    assert regs[..|regs|] == regs;
  }

  /** Issues the divider sweeps: `for clk in ["CLK0", ..., "CLK3"]`. */
  method SweepDividers(cfg: FuzzConfig, p: Primitive, loc: string, name: string, baseline: Bitstream)
    requires cfg.ncl == DspConfigNcl
    modifies cfg
    ensures cfg.ncl == DspConfigNcl
    ensures cfg.trace == old(cfg.trace) + FuzzRequests(p, loc, name, baseline, DivSweeps(DivClocks))
  {
    for i := 0 to |DivClocks|
      invariant cfg.ncl == DspConfigNcl
      invariant cfg.trace == old(cfg.trace) + FuzzRequests(p, loc, name, baseline, DivSweeps(DivClocks[..i]))
    {
      var field := DivField(DivClocks[i]);
      FuzzEnumSetting(cfg, name + "." + field, DivValues, ContextFn(p, loc, SetsField(field)), baseline, false);
      DivSweepsStep(DivClocks, i);
      FuzzRequestsAppend(p, loc, name, baseline, DivSweeps(DivClocks[..i]),
                         [Sweep(SetsField(field), DivValues)]);
    }
    assert DivClocks[..|DivClocks|] == DivClocks;
  }

  /** Issues the sweeps the script writes out one call at a time after the
      divider loop, in the order of the primitive's table. */
  method SweepExtras(cfg: FuzzConfig, p: Primitive, loc: string, name: string, baseline: Bitstream,
                     table: seq<(string, seq<string>)>)
    requires cfg.ncl == DspConfigNcl
    modifies cfg
    ensures cfg.ncl == DspConfigNcl
    ensures cfg.trace == old(cfg.trace) + FuzzRequests(p, loc, name, baseline, TableSweeps(table))
  {
    for i := 0 to |table|
      invariant cfg.ncl == DspConfigNcl
      invariant cfg.trace == old(cfg.trace) + FuzzRequests(p, loc, name, baseline, TableSweeps(table[..i]))
    {
      var (field, values) := table[i];
      FuzzEnumSetting(cfg, name + "." + field, values, ContextFn(p, loc, SetsField(field)), baseline, false);
      TableSweepsStep(table, i);
      FuzzRequestsAppend(p, loc, name, baseline, TableSweeps(table[..i]),
                         [Sweep(SetsField(field), values)]);
    }
    assert table[..|table|] == table;
  }

  /** `per_job`: build the baseline from the configuration's current template
      with an empty context, switch the template to the DSP one, then issue
      every sweep against that one baseline. */
  method PerJob(job: Job)
    modifies job.cfg
    ensures job.cfg.ncl == DspConfigNcl
    ensures job.cfg.trace == old(job.cfg.trace)
      + JobTrace(job.prim, job.loc, job.name, old(job.cfg.ncl), Bitstream(job.cfg.job, |old(job.cfg.trace)|))
  {
    var p, loc, name, cfg := job.prim, job.loc, job.name, job.cfg;
    ghost var t0 := cfg.trace;
    var emptyBitfile := cfg.BuildDesign(cfg.ncl, map[]);
    cfg.ncl := DspConfigNcl;
    ghost var build := [Build(old(cfg.ncl), map[], emptyBitfile)];
    ghost var mode := FuzzRequests(p, loc, name, emptyBitfile, [ModeSweep(p)]);
    ghost var regs := FuzzRequests(p, loc, name, emptyBitfile, RegSweeps(Regs(p)));
    ghost var divs := FuzzRequests(p, loc, name, emptyBitfile, DivSweeps(DivClocks));
    ghost var extras := FuzzRequests(p, loc, name, emptyBitfile, TableSweeps(ExtraSweeps(p)));

    assert name + ".MODE" == name + "." + SetsMode.Name();
    FuzzEnumSetting(cfg, name + ".MODE", ["NONE", EnabledMode(p)], ContextFn(p, loc, SetsMode), emptyBitfile, false);
    assert cfg.trace == t0 + build + mode;
    SweepRegisters(cfg, p, loc, name, emptyBitfile, Regs(p));
    SweepDividers(cfg, p, loc, name, emptyBitfile);
    SweepExtras(cfg, p, loc, name, emptyBitfile, ExtraSweeps(p));
    assert cfg.trace == t0 + build + mode + regs + divs + extras;
    PlanRequests(p, loc, name, emptyBitfile);
    ConcatTail(t0, build, mode, regs, divs, extras);
  }

  lemma ConcatTail<T>(t: seq<T>, a: seq<T>, b: seq<T>, c: seq<T>, d: seq<T>, e: seq<T>)
    ensures t + a + b + c + d + e == t + (a + (b + c + d + e))
  {
  }

  lemma PlanRequests(p: Primitive, loc: string, name: string, baseline: Bitstream)
    ensures FuzzRequests(p, loc, name, baseline, SweepPlan(p))
         == FuzzRequests(p, loc, name, baseline, [ModeSweep(p)])
          + FuzzRequests(p, loc, name, baseline, RegSweeps(Regs(p)))
          + FuzzRequests(p, loc, name, baseline, DivSweeps(DivClocks))
          + FuzzRequests(p, loc, name, baseline, TableSweeps(ExtraSweeps(p)))
  {
    var mode, regs, divs, extras :=
      [ModeSweep(p)], RegSweeps(Regs(p)), DivSweeps(DivClocks), TableSweeps(ExtraSweeps(p));
    FuzzRequestsAppend(p, loc, name, baseline, mode, regs);
    FuzzRequestsAppend(p, loc, name, baseline, mode + regs, divs);
    FuzzRequestsAppend(p, loc, name, baseline, mode + regs + divs, extras);
  }

  /** The jobs of a device are exactly the instances of the primitive's table:
      their sites, their names, and a configuration each on the empty template
      with the device's DSP tiles, no two jobs sharing one. */
  ghost predicate JobsFor(p: Primitive, device: string, jobs: seq<Job>)
    reads set k | 0 <= k < |jobs| :: jobs[k].cfg
  {
    && DspBase(device).Ok? && Locations(p, device).Ok?
    && |jobs| == |Labels(p)| == |Locations(p, device).value|
    && (forall k :: 0 <= k < |jobs| ==>
          && jobs[k].prim == p
          && jobs[k].loc == Locations(p, device).value[k]
          && jobs[k].name == Labels(p)[k]
          && jobs[k].cfg.job == Labels(p)[k]
          && jobs[k].cfg.family == Family
          && jobs[k].cfg.device == device
          && jobs[k].cfg.ncl == EmptyNcl
          && jobs[k].cfg.trace == []
          && IsTileGroup(jobs[k].cfg.tiles, DspBase(device).value))
    && forall j, k :: 0 <= j < |jobs| && 0 <= k < |jobs| && j != k ==> jobs[j].cfg != jobs[k].cfg
  }

  /** The module-level set-up of a fuzzer script: `dsp_tiles_for(DEVICE)`, the
      location table and the `jobs` list. An unsupported device is an error
      before any job exists. */
  method MakeJobs(p: Primitive, device: string) returns (r: Result<seq<Job>>)
    ensures r.Ok? <==> device in SupportedDevices
    ensures r.Err? ==> r.error == UnsupportedDevice(device)
    ensures r.Ok? ==> JobsFor(p, device, r.value)
    ensures r.Ok? ==> forall k :: 0 <= k < |r.value| ==> fresh(r.value[k].cfg)
  {
    var tiles :- DspTilesFor(device);
    LocationsFollowGeometry(p, device);
    var locs := Locations(p, device).value;
    LabelsFollowOffsets(p);
    var jobs := NewJobs(p, device, locs, Labels(p), tiles);
    return Ok(jobs);
  }

  /** The `jobs` list: one job per site and label, each with a configuration
      of its own on the empty template. */
  method NewJobs(p: Primitive, device: string, locs: seq<string>, names: seq<string>, tiles: seq<string>)
    returns (jobs: seq<Job>)
    requires |locs| == |names|
    ensures |jobs| == |names|
    ensures forall j :: 0 <= j < |jobs| ==>
      && jobs[j] == Job(p, locs[j], names[j], jobs[j].cfg)
      && jobs[j].cfg.job == names[j] && jobs[j].cfg.family == Family
      && jobs[j].cfg.device == device && jobs[j].cfg.ncl == EmptyNcl
      && jobs[j].cfg.trace == [] && jobs[j].cfg.tiles == tiles
      && fresh(jobs[j].cfg)
    ensures forall i, j :: 0 <= i < |jobs| && 0 <= j < |jobs| && i != j ==> jobs[i].cfg != jobs[j].cfg
  {
    jobs := [];
    for k := 0 to |names|
      invariant |jobs| == k
      invariant forall j :: 0 <= j < k ==>
        && jobs[j] == Job(p, locs[j], names[j], jobs[j].cfg)
        && jobs[j].cfg.job == names[j] && jobs[j].cfg.family == Family
        && jobs[j].cfg.device == device && jobs[j].cfg.ncl == EmptyNcl
        && jobs[j].cfg.trace == [] && jobs[j].cfg.tiles == tiles
        && fresh(jobs[j].cfg)
      invariant forall i, j :: 0 <= i < k && 0 <= j < k && i != j ==> jobs[i].cfg != jobs[j].cfg
    {
      var cfg := new FuzzConfig(names[k], Family, device, EmptyNcl, tiles);
      jobs := jobs + [Job(p, locs[k], names[k], cfg)];
    }
  }

  /** `fuzzloops.parallel_foreach(jobs, per_job)`, run one job after the other:
      each job's configuration ends with exactly its own job's trace. */
  method RunJobs(jobs: seq<Job>)
    requires forall j, k :: 0 <= j < |jobs| && 0 <= k < |jobs| && j != k ==> jobs[j].cfg != jobs[k].cfg
    modifies set k | 0 <= k < |jobs| :: jobs[k].cfg
    ensures forall k :: 0 <= k < |jobs| ==>
      && jobs[k].cfg.ncl == DspConfigNcl
      && jobs[k].cfg.trace == old(jobs[k].cfg.trace)
           + JobTrace(jobs[k].prim, jobs[k].loc, jobs[k].name, old(jobs[k].cfg.ncl),
                      Bitstream(jobs[k].cfg.job, |old(jobs[k].cfg.trace)|))
  {
    for i := 0 to |jobs|
      invariant forall k :: 0 <= k < i ==>
        && jobs[k].cfg.ncl == DspConfigNcl
        && jobs[k].cfg.trace == old(jobs[k].cfg.trace)
             + JobTrace(jobs[k].prim, jobs[k].loc, jobs[k].name, old(jobs[k].cfg.ncl),
                        Bitstream(jobs[k].cfg.job, |old(jobs[k].cfg.trace)|))
      invariant forall k :: i <= k < |jobs| ==>
        jobs[k].cfg.ncl == old(jobs[k].cfg.ncl) && jobs[k].cfg.trace == old(jobs[k].cfg.trace)
    {
      PerJob(jobs[i]);
    }
  }

  /** A fuzzer script's `main` after the database is loaded: the jobs for the
      device, each run once. Every job's trace is its baseline build from the
      empty template followed by its sweeps, all against that baseline. */
  method RunFuzzer(p: Primitive, device: string) returns (r: Result<seq<Job>>)
    ensures r.Ok? <==> device in SupportedDevices
    ensures r.Err? ==> r.error == UnsupportedDevice(device)
    ensures r.Ok? ==> |r.value| == |Labels(p)| && forall k :: 0 <= k < |r.value| ==>
      var job := r.value[k];
      && job.prim == p
      && job.loc == Locations(p, device).value[k]
      && job.name == Labels(p)[k]
      && job.cfg.ncl == DspConfigNcl
      && job.cfg.trace == JobTrace(p, job.loc, job.name, EmptyNcl, Bitstream(job.name, 0))
  {
    r := MakeJobs(p, device);
    if r.Ok? {
      RunJobs(r.value);
    }
  }
}
