/**
 * The run-preparation scripts: the per-reagent recipe (`generate_recipe`,
 * in the three copies that differ in rounding and in the master-mix
 * branch), the accepted and corrected sample counts, the protocol choice,
 * and the text substitutions that write the recipe and the run data into
 * the protocol templates (`update_files`, `rep_data`).
 */
module Recipe {
  import opened Wrappers
  import opened Arith

  // --------------------------------------------------------------- recipes

  /** A recipe entry: volume per sample and the dead volume each reservoir column keeps. */
  datatype Ingredient = Ingredient(perSample: nat, dead: nat)

  /** What `generate_recipe` gives a reagent: volume per reservoir column and number of columns. */
  datatype Share = Share(perWell: real, wells: nat)

  /**
   * The three copies: `input_file_tecnico.py` (per-column volume not
   * rounded), `input_file_tecnico_linux.py` (rounded up to 100) and
   * `multi_well_viral_IC.py` (rounded, plus the master-mix branch, which
   * uses the uncorrected sample count).
   */
  datatype Variant = Tecnico | TecnicoLinux | MultiWellIC(numSamples: nat)

  /** A reagent dictionary, in key order. */
  type Recipe = seq<(string, Ingredient)>

  /** Capacity of one reservoir column, `vol_max_pocillo`. */
  const ColumnCapacity: nat := 12400

  /** `math.ceil(x)` on a real. */
  function Ceil(x: real): (c: int)
    ensures c as real - 1.0 < x <= c as real
  {
    -((-x).Floor)
  }

  /** `vol_total = ceil(obj * cn / 100) * 100`: the reagent's total, rounded up to 100. */
  function VolTotal(i: Ingredient, cn: nat): (v: nat)
    ensures v % 100 == 0
    ensures i.perSample * cn <= v < i.perSample * cn + 100
  {
    RoundUpTo(i.perSample * cn, 100)
  }

  /** `num_cells = ceil(obj * cn / 12400)`: the fewest columns that hold the reagent. */
  function NumCells(i: Ingredient, cn: nat): (c: nat)
    ensures c * ColumnCapacity >= i.perSample * cn
    ensures c == 0 || (c - 1) * ColumnCapacity < i.perSample * cn
    ensures c == 0 <==> i.perSample * cn == 0
  {
    CeilDiv(i.perSample * cn, ColumnCapacity)
  }

  /** The reagent's share: `None` where the script would divide by zero columns. */
  function ShareOf(v: Variant, key: string, i: Ingredient, cn: nat): Option<Share>
  {
    if v.MultiWellIC? && key == "MMIX" then
      Some(Share((i.perSample * (v.numSamples + 2 + 3) + i.dead) as real, 1))
    else
      var cells := NumCells(i, cn);
      if cells == 0 then None
      else
        var raw := VolTotal(i, cn) as real / cells as real + i.dead as real;
        Some(Share(if v.Tecnico? then raw else (Ceil(raw / 100.0) * 100) as real, cells))
  }

  /** Whether every key of the dictionary is distinct. */
  predicate DistinctKeys(recipe: Recipe)
  {
    forall a, b :: 0 <= a < b < |recipe| ==> recipe[a].0 != recipe[b].0
  }

  function KeysOf(recipe: Recipe): set<string>
  {
    set k | 0 <= k < |recipe| :: recipe[k].0
  }

  /**
   * `generate_recipe`: every key of the dictionary, in order, gets its
   * share; the result has exactly the dictionary's keys.  `None` when some
   * reagent needs no column, where the script divides by zero.
   */
  method GenerateRecipe(v: Variant, recipe: Recipe, cn: nat) returns (result: Option<map<string, Share>>)
    requires DistinctKeys(recipe)
    ensures result.None? <==> exists k :: 0 <= k < |recipe| && ShareOf(v, recipe[k].0, recipe[k].1, cn).None?
    ensures result.Some? ==> result.value.Keys == KeysOf(recipe)
    ensures result.Some? ==> forall k :: 0 <= k < |recipe| ==>
      ShareOf(v, recipe[k].0, recipe[k].1, cn).Some? && result.value[recipe[k].0] == ShareOf(v, recipe[k].0, recipe[k].1, cn).value
  {
    var finalRecipe: map<string, Share> := map[];
    var k := 0;
    while k < |recipe|
      invariant k <= |recipe|
      invariant finalRecipe.Keys == KeysOf(recipe[..k])
      invariant forall j :: 0 <= j < k ==>
        ShareOf(v, recipe[j].0, recipe[j].1, cn).Some? && finalRecipe[recipe[j].0] == ShareOf(v, recipe[j].0, recipe[j].1, cn).value
    {
      var (key, ingredient) := recipe[k];
      var share := ShareOf(v, key, ingredient, cn);
      if share.None? {
        return None;
      }
      assert KeysOf(recipe[..k + 1]) == KeysOf(recipe[..k]) + {key} by {
        assert forall j :: 0 <= j < k + 1 ==> recipe[..k + 1][j] == recipe[j];
        assert forall j :: 0 <= j < k ==> recipe[..k][j] == recipe[j];
      }
      finalRecipe := finalRecipe[key := share.value];
      k := k + 1;
    }
    assert recipe[..k] == recipe;
    result := Some(finalRecipe);
  }

  /**
   * The rounded copies give each column a multiple of 100 that covers the
   * column's part of the total plus its dead volume, by less than 100.
   */
  lemma RoundedShare(v: Variant, key: string, i: Ingredient, cn: nat)
    requires !v.Tecnico? && !(v.MultiWellIC? && key == "MMIX") && i.perSample * cn > 0
    ensures var s := ShareOf(v, key, i, cn).value;
      var raw := VolTotal(i, cn) as real / s.wells as real + i.dead as real;
      && s.wells == NumCells(i, cn) >= 1
      && raw <= s.perWell < raw + 100.0
      && exists m: nat :: s.perWell == (100 * m) as real
  {
    var s := ShareOf(v, key, i, cn).value;
    var raw := VolTotal(i, cn) as real / s.wells as real + i.dead as real;
    var c := Ceil(raw / 100.0);
    assert raw > 0.0;
    assert c >= 1;
    assert s.perWell == (100 * c) as real;
  }

  /** The unrounded copy gives each column exactly its part of the rounded total plus the dead volume. */
  lemma UnroundedShare(key: string, i: Ingredient, cn: nat)
    requires i.perSample * cn > 0
    ensures var s := ShareOf(Tecnico, key, i, cn).value;
      && s.wells == NumCells(i, cn) >= 1
      && (s.perWell - i.dead as real) * s.wells as real == VolTotal(i, cn) as real
  {
  }

  /**
   * The master mix in `multi_well_viral_IC.py`: `obj * (num_samples + 2 + 3) + dead`
   * in one column, from the uncorrected count, whatever the corrected one is.
   */
  lemma MasterMixShare(numSamples: nat, i: Ingredient, cn: nat)
    ensures ShareOf(MultiWellIC(numSamples), "MMIX", i, cn) == Some(Share((i.perSample * (numSamples + 5) + i.dead) as real, 1))
  {
  }

  /** The Linux copy's recipes: [volume per sample, dead volume per column]. */
  const LinuxViral: Recipe := [("Beads", Ingredient(20, 800)), ("Wone", Ingredient(100, 600)), ("Wtwo", Ingredient(100, 600)),
    ("IC", Ingredient(10, 1500)), ("Elution", Ingredient(50, 900)), ("Lysis", Ingredient(100, 600))]
  const LinuxPathogen: Recipe := [("Beads", Ingredient(260, 600)), ("Wone", Ingredient(300, 600)), ("Wtwo", Ingredient(450, 600)),
    ("IC", Ingredient(10, 1500)), ("Elution", Ingredient(90, 600)), ("Lysis", Ingredient(260, 600))]
  /** The first copy's pathogen recipe (same per-sample volumes, IC keeps 900). */
  const TecnicoPathogen: Recipe := [("Beads", Ingredient(260, 600)), ("Wone", Ingredient(300, 600)), ("Wtwo", Ingredient(450, 600)),
    ("IC", Ingredient(10, 900)), ("Elution", Ingredient(90, 600)), ("Lysis", Ingredient(260, 600))]
  /** `multi_well_viral_IC.py`'s viral recipe: the Linux one plus the master mix. */
  const MultiWellViral: Recipe := LinuxViral + [("MMIX", Ingredient(20, 30))]

  /** The values the scripts produce for a full plate (corrected count 96). */
  lemma ShareExamples()
    ensures ShareOf(TecnicoLinux, "Beads", Ingredient(20, 800), 96) == Some(Share(2800.0, 1))
    ensures ShareOf(TecnicoLinux, "IC", Ingredient(10, 1500), 96) == Some(Share(2500.0, 1))
    ensures ShareOf(TecnicoLinux, "Beads", Ingredient(260, 600), 96) == Some(Share(9000.0, 3))
    ensures ShareOf(TecnicoLinux, "Wtwo", Ingredient(450, 600), 96) == Some(Share(11400.0, 4))
    ensures ShareOf(Tecnico, "Beads", Ingredient(260, 600), 96) == Some(Share(25000.0 / 3.0 + 600.0, 3))
    ensures ShareOf(MultiWellIC(96), "MMIX", Ingredient(20, 30), 96) == Some(Share(2050.0, 1))
    ensures ShareOf(MultiWellIC(24), "MMIX", Ingredient(20, 30), 24) == Some(Share(610.0, 1))
    ensures ShareOf(MultiWellIC(96), "IC", Ingredient(10, 1500), 96) == Some(Share(2500.0, 1))
  {
    assert VolTotal(Ingredient(20, 800), 96) == 2000 by { RoundUpToIs(1920, 100, 20); }
    assert NumCells(Ingredient(20, 800), 96) == 1 by { CeilDivIs(1920, ColumnCapacity, 1); }
    assert Ceil(2800.0 / 100.0) == 28;
    assert VolTotal(Ingredient(10, 1500), 96) == 1000 by { RoundUpToIs(960, 100, 10); }
    assert NumCells(Ingredient(10, 1500), 96) == 1 by { CeilDivIs(960, ColumnCapacity, 1); }
    assert Ceil(2500.0 / 100.0) == 25;
    assert VolTotal(Ingredient(260, 600), 96) == 25000 by { RoundUpToIs(24960, 100, 250); }
    assert NumCells(Ingredient(260, 600), 96) == 3 by { CeilDivIs(24960, ColumnCapacity, 3); }
    assert Ceil((25000.0 / 3.0 + 600.0) / 100.0) == 90;
    assert VolTotal(Ingredient(450, 600), 96) == 43200 by { RoundUpToIs(43200, 100, 432); }
    assert NumCells(Ingredient(450, 600), 96) == 4 by { CeilDivIs(43200, ColumnCapacity, 4); }
    assert Ceil((43200.0 / 4.0 + 600.0) / 100.0) == 114;
  }

  // ---------------------------------------------------------- sample count

  /** The sample count the scripts accept: between 1 and 94, the plate's other 2 wells being the controls. */
  predicate Accepted(n: int)
  {
    n > 0 && n <= 94
  }

  /** Asks for the sample count until an accepted one is given; `None` if the answers run out first. */
  method ReadSampleCount(answers: seq<int>) returns (n: Option<nat>)
    ensures n.None? <==> forall k :: 0 <= k < |answers| ==> !Accepted(answers[k])
    ensures n.Some? ==> exists k :: (0 <= k < |answers| && answers[k] == n.value && Accepted(answers[k])
      && forall j :: 0 <= j < k ==> !Accepted(answers[j]))
  {
    var k := 0;
    while k < |answers|
      invariant k <= |answers| && forall j :: 0 <= j < k ==> !Accepted(answers[j])
    {
      if Accepted(answers[k]) {
        return Some(answers[k]);
      }
      k := k + 1;
    }
    return None;
  }

  /** `num_samples_c = ceil(num_samples / 8) * 8`: the count rounded up to whole plate columns. */
  function CorrectedCount(n: nat): (c: nat)
    ensures c % 8 == 0
    ensures n <= c < n + 8
  {
    RoundUpTo(n, 8)
  }

  /**
   * An accepted count corrects to between 8 and 96 samples, so every
   * reagent with a positive volume per sample gets at least one column and
   * `generate_recipe` never divides by zero.
   */
  lemma CorrectedCountRange(n: nat, i: Ingredient, key: string, v: Variant)
    requires Accepted(n) && i.perSample > 0
    ensures 8 <= CorrectedCount(n) <= 96
    ensures ShareOf(v, key, i, CorrectedCount(n)).Some?
  {
    var c := CorrectedCount(n);
    assert c > 0;
    assert c <= 96;
    assert i.perSample * c > 0;
  }

  /** `select_protocol_type`: asks until the answer is `V` (viral) or `P` (pathogen) and returns it with its path. */
  method SelectProtocolType(answers: seq<string>, viralPath: string, pathogenPath: string)
    returns (choice: Option<(string, string)>)
    ensures choice.None? <==> forall k :: 0 <= k < |answers| ==> answers[k] != "V" && answers[k] != "P"
    ensures choice.Some? ==> choice.value == ("V", viralPath) || choice.value == ("P", pathogenPath)
    ensures choice.Some? ==> exists k :: (0 <= k < |answers| && answers[k] == choice.value.0
      && forall j :: 0 <= j < k ==> answers[j] != "V" && answers[j] != "P")
  {
    var k := 0;
    while k < |answers|
      invariant k <= |answers| && forall j :: 0 <= j < k ==> answers[j] != "V" && answers[j] != "P"
    {
      if answers[k] == "V" {
        return Some(("V", viralPath));
      } else if answers[k] == "P" {
        return Some(("P", pathogenPath));
      }
      k := k + 1;
    }
    return None;
  }

  // -------------------------------------------------------- substitutions

  /** Python's `str.replace`: every non-overlapping occurrence of `pat`, left to right, becomes `rep`. */
  function Replace(s: string, pat: string, rep: string): string
    decreases |s|
  {
    if pat == [] then (if s == [] then rep else rep + [s[0]] + Replace(s[1..], pat, rep))
    else if |s| < |pat| then s
    else if s[..|pat|] == pat then rep + Replace(s[|pat|..], pat, rep)
    else [s[0]] + Replace(s[1..], pat, rep)
  }

  /** Python's `pat in s`. */
  predicate Contains(s: string, pat: string)
    decreases |s|
  {
    |pat| <= |s| && (s[..|pat|] == pat || (s != [] && Contains(s[1..], pat)))
  }

  /** A text without the pattern is left as it is. */
  lemma {:induction false} ReplaceAbsent(s: string, pat: string, rep: string)
    requires pat != [] && !Contains(s, pat)
    ensures Replace(s, pat, rep) == s
    decreases |s|
  {
    if |s| >= |pat| {
      ReplaceAbsent(s[1..], pat, rep);
      assert [s[0]] + s[1..] == s;
    }
  }

  /** Replacing a pattern by itself changes nothing. */
  lemma {:induction false} ReplaceSelf(s: string, pat: string)
    requires pat != []
    ensures Replace(s, pat, pat) == s
    decreases |s|
  {
    if |s| >= |pat| {
      if s[..|pat|] == pat {
        ReplaceSelf(s[|pat|..], pat);
        assert pat + s[|pat|..] == s;
      } else {
        ReplaceSelf(s[1..], pat);
        assert [s[0]] + s[1..] == s;
      }
    }
  }

  /** A text that holds `a + b + c` holds `b`. */
  lemma {:induction false} ContainsMiddle(s: string, a: string, b: string, c: string)
    requires Contains(s, a + b + c)
    ensures Contains(s, b)
    decreases |s|
  {
    var p := a + b + c;
    if s[..|p|] == p {
      assert s[|a|..|a| + |b|] == b;
      ContainsAt(s, b, |a|);
    } else {
      ContainsMiddle(s[1..], a, b, c);
    }
  }

  /** An occurrence at position `i` is an occurrence. */
  lemma {:induction false} ContainsAt(s: string, pat: string, i: nat)
    requires i + |pat| <= |s| && s[i..i + |pat|] == pat
    ensures Contains(s, pat)
    decreases i
  {
    if i > 0 {
      assert s[1..][i - 1..i - 1 + |pat|] == pat;
      ContainsAt(s[1..], pat, i - 1);
    }
  }

  /** `rep_data`: the sample count, the technician's name and the date, each in its placeholder. */
  function RepData(n: nat, name: string, date: string, d: string, show: nat -> string): (r: string)
  {
    Replace(Replace(Replace(d, "$num_samples", show(n)), "$technician", "'" + name + "'"), "$date", "'" + date + "'")
  }

  /** A template with none of the three placeholders comes back unchanged. */
  lemma RepDataAbsent(n: nat, name: string, date: string, d: string, show: nat -> string)
    requires !Contains(d, "$num_samples") && !Contains(d, "$technician") && !Contains(d, "$date")
    ensures RepData(n, name, date, d, show) == d
  {
    ReplaceAbsent(d, "$num_samples", show(n));
    ReplaceAbsent(d, "$technician", "'" + name + "'");
    ReplaceAbsent(d, "$date", "'" + date + "'");
  }

  /**
   * The numbers written for a reagent: the copy for Linux writes the whole
   * reagent volume (per column times columns) as `$key_total_volume`; the
   * first copy writes the per-column volume there.  Both write the column
   * count as `$key_wells`.
   */
  function TotalWritten(linux: bool, s: Share): real
  {
    if linux then s.perWell * s.wells as real else s.perWell
  }

  /** The recipe's substitutions for one key, both placeholders, unconditionally. */
  function SubstituteKey(data: string, key: string, s: Share, linux: bool, show: real -> string): string
  {
    Replace(Replace(data, "$" + key + "_total_volume", show(TotalWritten(linux, s))), "$" + key + "_wells", show(s.wells as real))
  }

  /** The recipe's substitutions for the first `k` keys, in order. */
  function SubstituteAll(data: string, finalData: seq<(string, Share)>, k: nat, linux: bool, show: real -> string): string
    requires k <= |finalData|
  {
    if k == 0 then data
    else SubstituteKey(SubstituteAll(data, finalData, k - 1, linux, show), finalData[k - 1].0, finalData[k - 1].1, linux, show)
  }

  /** The run data's substitutions for the first `k` placeholders, in order. */
  function SubstituteOps(data: string, ops: seq<(string, string)>, k: nat): string
    requires k <= |ops|
  {
    if k == 0 then data else Replace(SubstituteOps(data, ops, k - 1), ops[k - 1].0, ops[k - 1].1)
  }

  /**
   * `update_files` (and the loop the first copy writes out inline): for
   * every reagent whose key occurs in the text, its two placeholders, then
   * every run-data placeholder that occurs.  The `in` checks never change
   * the outcome: the text is the one the unconditional substitutions give.
   */
  method UpdateFiles(data: string, finalData: seq<(string, Share)>, ops: seq<(string, string)>, linux: bool, show: real -> string)
    returns (out: string)
    requires forall k :: 0 <= k < |ops| ==> ops[k].0 != []
    ensures out == SubstituteOps(SubstituteAll(data, finalData, |finalData|, linux, show), ops, |ops|)
  {
    out := data;
    var k := 0;
    while k < |finalData|
      invariant k <= |finalData| && out == SubstituteAll(data, finalData, k, linux, show)
    {
      var (key, s) := finalData[k];
      if Contains(out, key) {
        out := Replace(out, "$" + key + "_total_volume", show(TotalWritten(linux, s)));
        out := Replace(out, "$" + key + "_wells", show(s.wells as real));
      } else {
        GuardIsRedundant(out, key, s, linux, show);
      }
      k := k + 1;
    }
    var j := 0;
    while j < |ops|
      invariant j <= |ops| && out == SubstituteOps(SubstituteAll(data, finalData, |finalData|, linux, show), ops, j)
    {
      if Contains(out, ops[j].0) {
        out := Replace(out, ops[j].0, ops[j].1);
      } else {
        ReplaceAbsent(out, ops[j].0, ops[j].1);
      }
      j := j + 1;
    }
  }

  /** A key absent from the text means both of its placeholders are absent, so substituting changes nothing. */
  lemma GuardIsRedundant(data: string, key: string, s: Share, linux: bool, show: real -> string)
    requires !Contains(data, key)
    ensures SubstituteKey(data, key, s, linux, show) == data
  {
    if Contains(data, "$" + key + "_total_volume") {
      ContainsMiddle(data, "$", key, "_total_volume");
    }
    ReplaceAbsent(data, "$" + key + "_total_volume", show(TotalWritten(linux, s)));
    if Contains(data, "$" + key + "_wells") {
      ContainsMiddle(data, "$", key, "_wells");
    }
    ReplaceAbsent(data, "$" + key + "_wells", show(s.wells as real));
  }

  /**
   * The templates build each reagent with `reagent_reservoir_volume` and
   * `num_wells` from those placeholders, and its column volume is their
   * quotient: with the Linux copy's numbers that is the recipe's
   * per-column volume.
   */
  lemma LinuxColumnVolume(s: Share)
    requires s.wells > 0
    ensures TotalWritten(true, s) / s.wells as real == s.perWell
  {
  }

  /**
   * With the first copy's numbers the column volume is the per-column
   * volume divided once more by the column count: for the pathogen beads at
   * 96 samples, 3 columns of 8933.33 become 3 columns of 2977.78.
   */
  lemma TecnicoColumnVolume(s: Share)
    requires s.wells > 0
    ensures TotalWritten(false, s) / s.wells as real == s.perWell / s.wells as real
    ensures s.wells > 1 && s.perWell > 0.0 ==> TotalWritten(false, s) / s.wells as real < s.perWell
  {
    if s.wells > 1 && s.perWell > 0.0 {
      var w := s.wells as real;
      var q := s.perWell / w;
      assert q * w == s.perWell;
      assert q > 0.0;
      assert q * w > q * 1.0;
    }
  }

  /** The first copy's pathogen beads at 96 samples: the column volume the template sees is a third of the recipe's. */
  lemma TecnicoBeadsShortfall()
    ensures var s := ShareOf(Tecnico, "Beads", Ingredient(260, 600), 96).value;
      && s.wells == 3
      && TotalWritten(false, s) / s.wells as real == (25000.0 / 3.0 + 600.0) / 3.0
      && TotalWritten(true, s) / s.wells as real == 25000.0 / 3.0 + 600.0
  {
    ShareExamples();
  }
}
