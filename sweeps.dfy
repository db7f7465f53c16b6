/** The settings sweep of one fuzz job: the ordered list of fields, each with
    its candidate values and the field its context function varies. */
module Sweeps {
  import opened Text
  import opened Primitives
  import opened Substs

  /** One `fuzz_enum_setting` call's field: what the context function varies and
      the values it is tried with. */
  datatype Sweep = Sweep(binding: Binding, candidates: seq<string>)

  /** The MODE sweep: the instance removed ("NONE") or in its active mode. */
  function ModeSweep(p: Primitive): Sweep
  {
    Sweep(SetsMode, ["NONE", EnabledMode(p)])
  }

  /** The three signals swept for every register, in the order swept. */
  const RegSignals: seq<string> := ["CLK", "CE", "RST"]

  function SignalValues(s: nat): seq<string>
    requires s < 3
  {
    if s == 0 then Clks else if s == 1 then Cens else Rsts
  }

  /** `"REG_{reg}_{signal}"` */
  function RegField(reg: string, signal: string): string
  {
    "REG_" + reg + "_" + signal
  }

  /** The `s`-th sweep of register `reg`: its clock, clock-enable or reset. */
  function RegSweep(reg: string, s: nat): Sweep
    requires s < 3
  {
    Sweep(SetsField(RegField(reg, RegSignals[s])), SignalValues(s))
  }

  /** The body of `for reg in regs`: three sweeps per register. */
  function RegSweeps(regs: seq<string>): (r: seq<Sweep>)
    ensures |r| == 3 * |regs|
  {
    seq(3 * |regs|, k requires 0 <= k < 3 * |regs| => RegSweep(regs[k / 3], k % 3))
  }

  /** `"{clk}_DIV"` */
  function DivField(clk: string): string
  {
    clk + "_DIV"
  }

  /** The body of `for clk in [...]`: one divider sweep per clock. */
  function DivSweeps(clks: seq<string>): (r: seq<Sweep>)
    ensures |r| == |clks|
  {
    seq(|clks|, k requires 0 <= k < |clks| => Sweep(SetsField(DivField(clks[k])), DivValues))
  }

  /** The sweeps issued one by one after the divider loop. */
  function TableSweeps(table: seq<(string, seq<string>)>): (r: seq<Sweep>)
    ensures |r| == |table|
  {
    seq(|table|, k requires 0 <= k < |table| => Sweep(SetsField(table[k].0), table[k].1))
  }

  /** Every sweep `per_job` issues, in order. */
  function SweepPlan(p: Primitive): seq<Sweep>
  {
    [ModeSweep(p)] + RegSweeps(Regs(p)) + DivSweeps(DivClocks) + TableSweeps(ExtraSweeps(p))
  }

  function FieldNames(plan: seq<Sweep>): (r: seq<string>)
    ensures |r| == |plan|
  {
    seq(|plan|, k requires 0 <= k < |plan| => plan[k].binding.Name())
  }

  // ---- building the plan loop by loop ----

  lemma RegSweepsStep(regs: seq<string>, i: nat)
    requires i < |regs|
    ensures RegSweeps(regs[..i + 1]) == RegSweeps(regs[..i]) + [RegSweep(regs[i], 0), RegSweep(regs[i], 1), RegSweep(regs[i], 2)]
  {
    var a := RegSweeps(regs[..i + 1]);
    var b := RegSweeps(regs[..i]) + [RegSweep(regs[i], 0), RegSweep(regs[i], 1), RegSweep(regs[i], 2)];
    forall k | 0 <= k < |a|
      ensures a[k] == b[k]
    {
      if k < 3 * i {
        assert regs[..i + 1][k / 3] == regs[..i][k / 3];
      } else {
        assert k / 3 == i;
      }
    }
  }

  lemma DivSweepsStep(clks: seq<string>, i: nat)
    requires i < |clks|
    ensures DivSweeps(clks[..i + 1]) == DivSweeps(clks[..i]) + [Sweep(SetsField(DivField(clks[i])), DivValues)]
  {
  }

  lemma TableSweepsStep(table: seq<(string, seq<string>)>, i: nat)
    requires i < |table|
    ensures TableSweeps(table[..i + 1]) == TableSweeps(table[..i]) + [Sweep(SetsField(table[i].0), table[i].1)]
  {
  }

  // ---- counts ----

  /** One MODE sweep, three per register, one per divided clock, then the table. */
  lemma PlanLength(p: Primitive)
    ensures |SweepPlan(p)| == 1 + 3 * |Regs(p)| + |DivClocks| + |ExtraSweeps(p)|
    ensures |SweepPlan(p)| == (match p case MULT9 => 26 case ALU24 => 19 case PRADD9 => 25)
  {
  }

  // ---- distinct field names ----

  /** Starts with "REG_". */
  predicate HasRegPrefix(s: string)
  {
    |s| >= 4 && s[0] == 'R' && s[1] == 'E' && s[2] == 'G' && s[3] == '_'
  }

  /** The field names of a table of sweeps. */
  function Keys(table: seq<(string, seq<string>)>): (r: seq<string>)
    ensures |r| == |table|
  {
    if table == [] then [] else [table[0].0] + Keys(table[1..])
  }

  lemma {:induction false} KeysAt(table: seq<(string, seq<string>)>, k: nat)
    requires k < |table|
    ensures Keys(table)[k] == table[k].0
  {
    if k > 0 {
      KeysAt(table[1..], k - 1);
    }
  }

  function ExtraNames(p: Primitive): (r: seq<string>)
    ensures |r| == |ExtraSweeps(p)|
  {
    Keys(ExtraSweeps(p))
  }

  /** What makes a primitive's field table free of duplicates: its registers are
      distinct, its extra fields are distinct, and no extra field could be
      mistaken for MODE, a register field or a divider field. */
  predicate FieldTableSound(p: Primitive)
  {
    && NoDuplicates(Regs(p))
    && NoDuplicates(ExtraNames(p))
    && AllStandalone(ExtraNames(p))
  }

  /** Ends in 'V', as every divider field ("..._DIV") does. */
  predicate EndsInV(s: string)
  {
    |s| > 0 && s[|s| - 1] == 'V'
  }

  /** Not MODE, not a register field, not a divider field. */
  predicate Standalone(name: string)
  {
    name != "MODE" && !HasRegPrefix(name) && !EndsInV(name)
  }

  predicate AllStandalone(names: seq<string>)
  {
    |names| == 0 || (Standalone(names[0]) && AllStandalone(names[1..]))
  }

  lemma {:induction false} AllStandaloneAt(names: seq<string>, k: nat)
    requires AllStandalone(names) && k < |names|
    ensures Standalone(names[k])
  {
    if k > 0 {
      AllStandaloneAt(names[1..], k - 1);
    }
  }

  lemma TablesSound(p: Primitive)
    ensures FieldTableSound(p)
  {
    match p
    case MULT9 => Mult9TableSound();
    case ALU24 => Alu24TableSound();
    case PRADD9 => Pradd9TableSound();
  }

  lemma Mult9TableSound()
    ensures FieldTableSound(MULT9)
  {
    Mult9RegsClear();
    Mult9ExtraNames();
    Mult9ExtraNamesClear();
  }

  lemma Mult9RegsClear()
    ensures NoDuplicates(Regs(MULT9))
  {
  }

  lemma Mult9ExtraNames()
    ensures ExtraNames(MULT9) == ["CAS_MATCH_REG", "MULT_BYPASS", "GSR", "RESETMODE", "SOURCEB_MODE", "HIGHSPEED_CLK"]
  {
  }

  lemma Mult9ExtraNamesClear()
    ensures NoDuplicates(["CAS_MATCH_REG", "MULT_BYPASS", "GSR", "RESETMODE", "SOURCEB_MODE", "HIGHSPEED_CLK"])
    ensures AllStandalone(["CAS_MATCH_REG", "MULT_BYPASS", "GSR", "RESETMODE", "SOURCEB_MODE", "HIGHSPEED_CLK"])
  {
  }

  lemma Alu24TableSound()
    ensures FieldTableSound(ALU24)
  {
    Alu24RegsClear();
    Alu24ExtraNames();
    Alu24ExtraNamesClear();
  }

  lemma Alu24RegsClear()
    ensures NoDuplicates(Regs(ALU24))
  {
  }

  lemma Alu24ExtraNames()
    ensures ExtraNames(ALU24) == ["GSR", "RESETMODE"]
  {
  }

  lemma Alu24ExtraNamesClear()
    ensures NoDuplicates(["GSR", "RESETMODE"])
    ensures AllStandalone(["GSR", "RESETMODE"])
  {
  }

  lemma Pradd9TableSound()
    ensures FieldTableSound(PRADD9)
  {
    Pradd9RegsClear();
    Pradd9ExtraNames();
    Pradd9ExtraNamesDistinct();
    Pradd9ExtraNamesStandalone();
  }

  lemma Pradd9RegsClear()
    ensures NoDuplicates(Regs(PRADD9))
  {
  }

  lemma Pradd9ExtraNames()
    ensures ExtraNames(PRADD9) == ["GSR", "RESETMODE", "CAS_MATCH_REG", "SOURCEA_MODE", "SOURCEB_MODE", "FB_MUX", "SYMMETRY_MODE", "HIGHSPEED_CLK"]
  {
  }

  lemma Pradd9ExtraNamesDistinct()
    ensures NoDuplicates(["GSR", "RESETMODE", "CAS_MATCH_REG", "SOURCEA_MODE", "SOURCEB_MODE", "FB_MUX", "SYMMETRY_MODE", "HIGHSPEED_CLK"])
  {
  }

  lemma Pradd9ExtraNamesStandalone()
    ensures AllStandalone(["GSR", "RESETMODE", "CAS_MATCH_REG", "SOURCEA_MODE", "SOURCEB_MODE", "FB_MUX", "SYMMETRY_MODE", "HIGHSPEED_CLK"])
  {
  }

  lemma RegFieldInjective(r: string, s: nat, r': string, s': nat)
    requires s < 3 && s' < 3
    ensures RegField(r, RegSignals[s]) == RegField(r', RegSignals[s']) ==> r == r' && s == s'
  {
    var a, b := RegField(r, RegSignals[s]), RegField(r', RegSignals[s']);
    assert a[|a| - 1] == RegSignals[s][|RegSignals[s]| - 1];
    assert b[|b| - 1] == RegSignals[s'][|RegSignals[s']| - 1];
    assert a[4..4 + |r|] == r;
    assert b[4..4 + |r'|] == r';
  }

  lemma DistinctConcat<T>(a: seq<T>, b: seq<T>)
    requires Distinct(a) && Distinct(b)
    requires forall i, j :: 0 <= i < |a| && 0 <= j < |b| ==> a[i] != b[j]
    ensures Distinct(a + b)
  {
    var s := a + b;
    forall i, j | 0 <= i < |s| && 0 <= j < |s| && i != j
      ensures s[i] != s[j]
    {
      if i < |a| && j >= |a| {
        assert s[j] == b[j - |a|];
      } else if i >= |a| && j < |a| {
        assert s[i] == b[i - |a|];
      } else if i >= |a| {
        assert s[i] == b[i - |a|] && s[j] == b[j - |a|];
      }
    }
  }

  lemma RegNamesDistinct(regs: seq<string>)
    requires Distinct(regs)
    ensures Distinct(FieldNames(RegSweeps(regs)))
    ensures forall k :: 0 <= k < 3 * |regs| ==> HasRegPrefix(FieldNames(RegSweeps(regs))[k])
  {
    var names := FieldNames(RegSweeps(regs));
    forall i, j | 0 <= i < |names| && 0 <= j < |names| && i != j
      ensures names[i] != names[j]
    {
      RegFieldInjective(regs[i / 3], i % 3, regs[j / 3], j % 3);
    }
    forall k | 0 <= k < |names|
      ensures HasRegPrefix(names[k])
    {
      assert names[k] == "REG_" + (regs[k / 3] + "_" + RegSignals[k % 3]);
    }
  }

  const DivNames: seq<string> := ["CLK0_DIV", "CLK1_DIV", "CLK2_DIV", "CLK3_DIV"]

  lemma DivSweepNames()
    ensures FieldNames(DivSweeps(DivClocks)) == DivNames
  {
    var divs := FieldNames(DivSweeps(DivClocks));
    assert divs[0] == "CLK0_DIV" && divs[1] == "CLK1_DIV";
    assert divs[2] == "CLK2_DIV" && divs[3] == "CLK3_DIV";
  }

  lemma FieldNamesAppend(a: seq<Sweep>, b: seq<Sweep>)
    ensures FieldNames(a + b) == FieldNames(a) + FieldNames(b)
  {
  }

  lemma TableSweepNames(table: seq<(string, seq<string>)>)
    ensures FieldNames(TableSweeps(table)) == Keys(table)
  {
    forall k | 0 <= k < |table|
      ensures FieldNames(TableSweeps(table))[k] == Keys(table)[k]
    {
      KeysAt(table, k);
    }
  }

  lemma FieldNamesSplit(m: seq<Sweep>, a: seq<Sweep>, b: seq<Sweep>, c: seq<Sweep>)
    ensures FieldNames(m + a + b + c) == FieldNames(m) + FieldNames(a) + FieldNames(b) + FieldNames(c)
  {
    FieldNamesAppend(m, a);
    FieldNamesAppend(m + a, b);
    FieldNamesAppend(m + a + b, c);
  }

  lemma PlanNames(p: Primitive)
    ensures FieldNames(SweepPlan(p)) ==
      ["MODE"] + FieldNames(RegSweeps(Regs(p))) + DivNames + ExtraNames(p)
  {
    DivSweepNames();
    TableSweepNames(ExtraSweeps(p));
    assert FieldNames([ModeSweep(p)]) == ["MODE"];
    FieldNamesSplit([ModeSweep(p)], RegSweeps(Regs(p)), DivSweeps(DivClocks), TableSweeps(ExtraSweeps(p)));
  }

  /** The four groups of names are distinct inside and apart from each other. */
  lemma GroupsDistinct(regs: seq<string>, extras: seq<string>)
    requires Distinct(regs) && Distinct(extras)
    requires forall k :: 0 <= k < |regs| ==> HasRegPrefix(regs[k])
    requires forall k :: 0 <= k < |extras| ==> Standalone(extras[k])
    ensures Distinct(["MODE"] + regs + DivNames + extras)
  {
    NoDuplicatesDistinct(DivNames);
    assert forall k :: 0 <= k < |DivNames| ==> EndsInV(DivNames[k]) && !HasRegPrefix(DivNames[k]);
    DistinctConcat(["MODE"], regs);
    DistinctConcat(["MODE"] + regs, DivNames);
    DistinctConcat(["MODE"] + regs + DivNames, extras);
  }

  /** No field is swept twice in a job (the source's sweeps are written out by
      hand; a repeated field would be attributed twice). */
  lemma FieldNamesDistinct(p: Primitive)
    ensures Distinct(FieldNames(SweepPlan(p)))
  {
    TablesSound(p);
    PlanNames(p);
    NoDuplicatesDistinct(Regs(p));
    RegNamesDistinct(Regs(p));
    var extras := ExtraNames(p);
    NoDuplicatesDistinct(extras);
    forall k | 0 <= k < |extras|
      ensures Standalone(extras[k])
    {
      AllStandaloneAt(extras, k);
    }
    GroupsDistinct(FieldNames(RegSweeps(Regs(p))), extras);
  }
}
