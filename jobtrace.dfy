/** What one run of `per_job` promises, stated on the trace it leaves: one
    baseline build, first; every later call against that baseline, on the DSP
    template, under a field name of its own; and the contexts each call builds.
    Each property is first proved for any list of sweeps, then for the plan. */
module JobTraces {
  import opened Text
  import opened Results
  import opened Devices
  import opened Primitives
  import opened Substs
  import opened Sweeps
  import opened Fuzzer

  // ---- for any list of sweeps ----

  lemma CallsShape(p: Primitive, loc: string, name: string, ncl0: string, b: Bitstream, sws: seq<Sweep>)
    ensures var t := Calls(p, loc, name, ncl0, b, sws);
      && |t| == 1 + |sws|
      && t[0] == Build(ncl0, map[], b)
      && forall k :: 1 <= k < |t| ==>
           && t[k] == FuzzRequest(p, loc, name, b, sws[k - 1])
           && t[k].FuzzEnum?
           && t[k].ncl == DspConfigNcl
           && t[k].field == name + "." + FieldNames(sws)[k - 1]
           && t[k].baseline == t[0].result
           && !t[k].flag
  {
  }

  lemma PrefixCancel(pre: string, a: string, b: string)
    ensures pre + a == pre + b ==> a == b
  {
    if pre + a == pre + b {
      assert a == (pre + a)[|pre|..];
      assert b == (pre + b)[|pre|..];
    }
  }

  lemma CallsFieldsDistinct(p: Primitive, loc: string, name: string, ncl0: string, b: Bitstream, sws: seq<Sweep>)
    requires Distinct(FieldNames(sws))
    ensures var t := Calls(p, loc, name, ncl0, b, sws);
      forall j, k :: 1 <= j < |t| && 1 <= k < |t| && j != k ==> t[j].field != t[k].field
  {
    var t := Calls(p, loc, name, ncl0, b, sws);
    var names := FieldNames(sws);
    CallsShape(p, loc, name, ncl0, b, sws);
    forall j, k | 1 <= j < |t| && 1 <= k < |t| && j != k
      ensures t[j].field != t[k].field
    {
      PrefixCancel(name + ".", names[j - 1], names[k - 1]);
    }
  }

  lemma CallsContexts(p: Primitive, loc: string, name: string, ncl0: string, b: Bitstream, sws: seq<Sweep>)
    requires |sws| >= 1 && sws[0] == ModeSweep(p)
    requires forall k :: 1 <= k < |sws| ==> sws[k].binding.SetsField?
    ensures var t := Calls(p, loc, name, ncl0, b, sws);
      && t[1].field == name + ".MODE"
      && t[1].values == ["NONE", EnabledMode(p)]
      && (forall x :: var c := t[1].context.Apply(x);
            c["mode"] == x && c["settings"] == "" && (c["comment"] == "//" <==> x == "NONE"))
      && forall k, x :: 2 <= k < |t| ==>
           && t[k].context.Apply(x) == Nominal(p, loc)["settings" := FieldNames(sws)[k - 1] + "=" + x]
           && t[k].context.Apply(x)["comment"] == ""
  {
    var t := Calls(p, loc, name, ncl0, b, sws);
    CallsShape(p, loc, name, ncl0, b, sws);
    forall x
      ensures var c := t[1].context.Apply(x);
        c["mode"] == x && c["settings"] == "" && (c["comment"] == "//" <==> x == "NONE")
    {
      ModeContext(p, loc, x);
    }
    forall k, x | 2 <= k < |t|
      ensures t[k].context.Apply(x) == Nominal(p, loc)["settings" := FieldNames(sws)[k - 1] + "=" + x]
      ensures t[k].context.Apply(x)["comment"] == ""
    {
      FieldContext(p, loc, sws[k - 1].binding.key, x);
    }
  }

  // ---- for the plan of a primitive ----

  /** The baseline is built exactly once, before anything else, from the
      starting template with an empty context; every later call is a
      `fuzz_enum_setting` on the DSP template, compared against that one
      baseline, with the structural flag off. */
  lemma BaselineOnceFirst(p: Primitive, loc: string, name: string, ncl0: string, b: Bitstream)
    ensures var t := JobTrace(p, loc, name, ncl0, b);
      && |t| == 1 + |SweepPlan(p)|
      && t[0] == Build(ncl0, map[], b)
      && forall k :: 1 <= k < |t| ==>
           && t[k].FuzzEnum?
           && t[k].ncl == DspConfigNcl
           && t[k].baseline == t[0].result
           && !t[k].flag
  {
    CallsShape(p, loc, name, ncl0, b, SweepPlan(p));
  }

  /** A job issues 26 calls for MULT9, 19 for ALU24 and 25 for PRADD9, after
      its one build. */
  lemma TraceLength(p: Primitive, loc: string, name: string, ncl0: string, b: Bitstream)
    ensures |JobTrace(p, loc, name, ncl0, b)| ==
      (match p case MULT9 => 27 case ALU24 => 20 case PRADD9 => 26)
  {
    PlanLength(p);
  }

  /** Call k reports the k-th field of the plan under the job's name. */
  lemma TraceFields(p: Primitive, loc: string, name: string, ncl0: string, b: Bitstream)
    ensures var t := JobTrace(p, loc, name, ncl0, b);
      forall k :: 1 <= k < |t| ==> t[k].field == name + "." + FieldNames(SweepPlan(p))[k - 1]
  {
    CallsShape(p, loc, name, ncl0, b, SweepPlan(p));
  }

  /** No two calls of a job report the same field, so no result of the job
      overwrites another. */
  lemma TraceFieldsDistinct(p: Primitive, loc: string, name: string, ncl0: string, b: Bitstream)
    ensures var t := JobTrace(p, loc, name, ncl0, b);
      forall j, k :: 1 <= j < |t| && 1 <= k < |t| && j != k ==> t[j].field != t[k].field
  {
    FieldNamesDistinct(p);
    CallsFieldsDistinct(p, loc, name, ncl0, b, SweepPlan(p));
  }

  /** Every sweep after the first varies one settings field. */
  lemma PlanBindings(p: Primitive)
    ensures |SweepPlan(p)| >= 1 && SweepPlan(p)[0] == ModeSweep(p)
    ensures forall k :: 1 <= k < |SweepPlan(p)| ==> SweepPlan(p)[k].binding.SetsField?
  {
    var regs, divs, extras := RegSweeps(Regs(p)), DivSweeps(DivClocks), TableSweeps(ExtraSweeps(p));
    var rest := regs + divs + extras;
    assert SweepPlan(p) == [ModeSweep(p)] + rest;
    forall k | 0 <= k < |rest|
      ensures rest[k].binding.SetsField?
    {
      if k < |regs| {
        assert rest[k] == regs[k];
      } else if k < |regs| + |divs| {
        assert rest[k] == divs[k - |regs|];
      } else {
        assert rest[k] == extras[k - |regs| - |divs|];
      }
    }
  }

  /** The mode call toggles the instance between absent ("NONE", which
      comments the instance out) and the primitive's enabled mode; every other
      call keeps the default mode and changes only the settings string, to
      exactly `field=x`. */
  lemma TraceContexts(p: Primitive, loc: string, name: string, ncl0: string, b: Bitstream)
    ensures var t := JobTrace(p, loc, name, ncl0, b);
      && t[1].field == name + ".MODE"
      && t[1].values == ["NONE", EnabledMode(p)]
      && (forall x :: var c := t[1].context.Apply(x);
            c["mode"] == x && c["settings"] == "" && (c["comment"] == "//" <==> x == "NONE"))
      && forall k, x :: 2 <= k < |t| ==>
           && t[k].context.Apply(x) == Nominal(p, loc)["settings" := FieldNames(SweepPlan(p))[k - 1] + "=" + x]
           && t[k].context.Apply(x)["comment"] == ""
  {
    PlanBindings(p);
    CallsContexts(p, loc, name, ncl0, b, SweepPlan(p));
  }

  /** The first sweep after the mode is the first register's clock. */
  lemma FirstRegisterSweep(p: Primitive)
    ensures |Regs(p)| >= 1 && |SweepPlan(p)| >= 2
    ensures SweepPlan(p)[1] == Sweep(SetsField(RegField(Regs(p)[0], "CLK")), Clks)
  {
    var regs := RegSweeps(Regs(p));
    assert SweepPlan(p)[1] == regs[0];
  }

  /** The second call of every job sweeps the first register's clock. */
  lemma FirstRegisterCall(p: Primitive, loc: string, name: string, ncl0: string, b: Bitstream)
    ensures |Regs(p)| >= 1
    ensures var t := JobTrace(p, loc, name, ncl0, b);
      |t| >= 3 && t[2] == FuzzRequest(p, loc, name, b, Sweep(SetsField(RegField(Regs(p)[0], "CLK")), Clks))
  {
    FirstRegisterSweep(p);
    CallsShape(p, loc, name, ncl0, b, SweepPlan(p));
  }

  lemma InputAClockField()
    ensures RegField("INPUTA", "CLK") == "REG_INPUTA_CLK"
  {
  }

  /** The first job of the MULT9 fuzzer on an LFE5U-25F fuzzes site
      MULT9_R13C4. */
  lemma Mult9SmallDeviceSites()
    ensures Locations(MULT9, "LFE5U-25F") == Ok(["MULT9_R13C4", "MULT9_R13C5"])
  {
  }

  /** That job builds its baseline from the empty template, then toggles the
      mode between "NONE" and "MULT9X9D", then sweeps `REG_INPUTA_CLK` over the
      five clock choices with the settings string set to that field alone. */
  lemma Mult9FirstJobCalls(p: Primitive, b: Bitstream)
    requires p == MULT9
    ensures var t := JobTrace(p, "MULT9_R13C4", "MULT9_0", EmptyNcl, b);
      && t[0] == Build("empty.ncl", map[], b)
      && t[1].field == "MULT9_0.MODE" && t[1].values == ["NONE", "MULT9X9D"]
      && t[2].field == "MULT9_0.REG_INPUTA_CLK"
      && t[2].values == ["NONE", "CLK0", "CLK1", "CLK2", "CLK3"]
      && t[2].context.Apply("CLK2")["settings"] == "REG_INPUTA_CLK=CLK2"
      && t[2].context.Apply("CLK2")["loc"] == "MULT9_R13C4"
  {
    BaselineOnceFirst(p, "MULT9_R13C4", "MULT9_0", EmptyNcl, b);
    TraceContexts(p, "MULT9_R13C4", "MULT9_0", EmptyNcl, b);
    FirstRegisterCall(p, "MULT9_R13C4", "MULT9_0", EmptyNcl, b);
    InputAClockField();
    FieldContext(p, "MULT9_R13C4", "REG_INPUTA_CLK", "CLK2");
  }

  /** A candidate list worth sweeping: at least two values, none repeated. */
  predicate ValuesClear(vals: seq<string>)
  {
    |vals| >= 2 && NoDuplicates(vals)
  }

  /** The register and divider lists: five clock choices starting with "NONE",
      four clock enables, four resets, two divider states. */
  lemma SignalListsClear()
    ensures |Clks| == 5 && Clks[0] == "NONE" && |Cens| == 4 && |Rsts| == 4 && |DivValues| == 2
    ensures ValuesClear(Clks) && ValuesClear(Cens) && ValuesClear(Rsts) && ValuesClear(DivValues)
  {
  }

  lemma Mult9ValuesClear()
    ensures forall k :: 0 <= k < |ExtraSweeps(MULT9)| ==> ValuesClear(ExtraSweeps(MULT9)[k].1)
  {
    SignalListsClear();
  }

  lemma Alu24ValuesClear()
    ensures forall k :: 0 <= k < |ExtraSweeps(ALU24)| ==> ValuesClear(ExtraSweeps(ALU24)[k].1)
  {
  }

  lemma Pradd9ValuesClear()
    ensures forall k :: 0 <= k < |ExtraSweeps(PRADD9)| ==> ValuesClear(ExtraSweeps(PRADD9)[k].1)
  {
    SignalListsClear();
  }

  lemma ExtrasClear(p: Primitive)
    ensures forall k :: 0 <= k < |ExtraSweeps(p)| ==> ValuesClear(ExtraSweeps(p)[k].1)
  {
    match p
    case MULT9 => Mult9ValuesClear();
    case ALU24 => Alu24ValuesClear();
    case PRADD9 => Pradd9ValuesClear();
  }

  /** The sweeps after the mode, group by group, each with clear candidates. */
  lemma FieldSweepsClear(p: Primitive)
    ensures forall k :: 0 <= k < |RegSweeps(Regs(p))| ==> ValuesClear(RegSweeps(Regs(p))[k].candidates)
    ensures forall k :: 0 <= k < |DivSweeps(DivClocks)| ==> ValuesClear(DivSweeps(DivClocks)[k].candidates)
    ensures forall k :: 0 <= k < |TableSweeps(ExtraSweeps(p))| ==>
      ValuesClear(TableSweeps(ExtraSweeps(p))[k].candidates)
  {
    SignalListsClear();
    ExtrasClear(p);
    var regs := Regs(p);
    forall k | 0 <= k < |RegSweeps(regs)|
      ensures ValuesClear(RegSweeps(regs)[k].candidates)
    {
      assert RegSweeps(regs)[k].candidates == SignalValues(k % 3);
    }
  }

  /** Every call of a job sweeps at least two candidates, none twice. */
  lemma CandidatesClear(p: Primitive)
    ensures forall k :: 0 <= k < |SweepPlan(p)| ==>
      ValuesClear(SweepPlan(p)[k].candidates) && Distinct(SweepPlan(p)[k].candidates)
  {
    var regs, divs, extras := RegSweeps(Regs(p)), DivSweeps(DivClocks), TableSweeps(ExtraSweeps(p));
    var plan := SweepPlan(p);
    assert plan == [ModeSweep(p)] + regs + divs + extras;
    FieldSweepsClear(p);
    DefaultModeActive(p);
    forall k | 0 <= k < |plan|
      ensures ValuesClear(plan[k].candidates) && Distinct(plan[k].candidates)
    {
      if k == 0 {
        assert plan[k] == ModeSweep(p);
      } else if k < 1 + |regs| {
        assert plan[k] == regs[k - 1];
      } else if k < 1 + |regs| + |divs| {
        assert plan[k] == divs[k - 1 - |regs|];
      } else {
        assert plan[k] == extras[k - 1 - |regs| - |divs|];
      }
      NoDuplicatesDistinct(plan[k].candidates);
    }
  }
}
