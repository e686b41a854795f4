/**
 * The investment calculator (CalculadoraInversion): validation of the form,
 * the integer chain of deductions that follows the compounding step, the
 * parser for thousands-separated amounts, and the history list with its
 * save, delete, clear and JSON-import operations.
 *
 * The compounding itself (a floating-point power) is not modelled: the gross
 * total it produces is an input of the deduction chain. Timestamps (the id
 * and the consultation date) are integers supplied by the caller.
 */
module Investment {
  import opened Wrappers
  import opened Rounding
  import opened Text
  import opened HistoryLog

  // ---------------------------------------------------------------------------
  // Form input and its validation (validarDatos)
  // ---------------------------------------------------------------------------

  /** The form's values after obtenerDatosFormulario has read them. */
  datatype Input = Input(
    invested: int,
    rate: real,
    days: int,
    startDate: string,
    withholdingPct: real,
    applies4x1000: bool)

  /** The first check that fails, in the order the form checks them. */
  datatype InputError = NonPositiveAmount | NonPositiveRate | NonPositiveTerm | MissingStartDate

  /**
   * None when the input is accepted; otherwise the first failing check:
   * amount, then rate, then term, then start date. The withholding
   * percentage is not checked.
   */
  function Validate(i: Input): (r: Option<InputError>)
    ensures r == None <==> i.invested > 0 && i.rate > 0.0 && i.days > 0 && i.startDate != []
    ensures r == Some(NonPositiveAmount) <==> i.invested <= 0
    ensures r == Some(NonPositiveRate) <==> i.invested > 0 && i.rate <= 0.0
    ensures r == Some(NonPositiveTerm) <==> i.invested > 0 && i.rate > 0.0 && i.days <= 0
    ensures r == Some(MissingStartDate) <==>
              i.invested > 0 && i.rate > 0.0 && i.days > 0 && i.startDate == []
  {
    if i.invested <= 0 then Some(NonPositiveAmount)
    else if i.rate <= 0.0 then Some(NonPositiveRate)
    else if i.days <= 0 then Some(NonPositiveTerm)
    else if i.startDate == [] then Some(MissingStartDate)
    else None
  }

  /** The verdict depends neither on the withholding percentage nor on the 4x1000 choice. */
  lemma ValidateIgnoresDeductions(i: Input, pct: real, applies: bool)
    ensures Validate(i.(withholdingPct := pct, applies4x1000 := applies)) == Validate(i)
  {
  }

  // ---------------------------------------------------------------------------
  // The deduction chain (realizarCalculos after the compounding step)
  // ---------------------------------------------------------------------------

  /** The integer figures realizarCalculos returns (dates and the effective rate left out). */
  datatype Figures = Figures(
    profit: int,
    grossTotal: int,
    withholding: int,
    profitTax: int,
    netProfitInfo: int,
    subtotal: int,
    tax4x1000: int,
    finalValue: int,
    netGain: int)

  /**
   * The deductions applied to a gross total: the withholding on the profit,
   * the informational 4x1000 on the profit left after withholding, and the
   * 4x1000 on the whole gross total, which is what the final value deducts.
   */
  function Deductions(invested: int, grossTotal: int, pct: real, applies: bool): Figures
  {
    var profit := grossTotal - invested;
    var withholding := Round(profit as real * pct / 100.0);
    var base := profit - withholding;
    var profitTax := if applies then PerMille4(base) else 0;
    var netProfitInfo := if applies then base - profitTax else profit - withholding;
    var subtotal := grossTotal - withholding;
    var tax := if applies then PerMille4(grossTotal) else 0;
    var finalValue := subtotal - tax;
    Figures(profit, grossTotal, withholding, profitTax, netProfitInfo,
            subtotal, tax, finalValue, finalValue - invested)
  }

  /**
   * The final value and the net gain in closed integer form: the gross total
   * less the withholding and, when it applies, the 4x1000 of the gross total
   * computed as (4v + 500) / 1000. The informational figures play no part.
   */
  lemma DeductionsClosedForm(invested: int, grossTotal: int, pct: real, applies: bool)
    ensures var f := Deductions(invested, grossTotal, pct, applies);
      var tax := if applies then (4 * grossTotal + 500) / 1000 else 0;
      && f.profit == grossTotal - invested
      && f.withholding == Round((grossTotal - invested) as real * pct / 100.0)
      && f.tax4x1000 == tax
      && f.subtotal == grossTotal - f.withholding
      && f.finalValue == grossTotal - f.withholding - tax
      && f.netGain == f.profit - f.withholding - tax
  {
    PerMille4Integer(grossTotal);
  }

  /**
   * The informational 4x1000 splits the profit after withholding exactly:
   * its tax, computed on that base, plus the informational net profit give the base.
   */
  lemma InformationalSplit(invested: int, grossTotal: int, pct: real, applies: bool)
    ensures var f := Deductions(invested, grossTotal, pct, applies);
      var base := f.profit - f.withholding;
      && f.profitTax + f.netProfitInfo == base
      && f.profitTax == (if applies then (4 * base + 500) / 1000 else 0)
  {
    var f := Deductions(invested, grossTotal, pct, applies);
    PerMille4Integer(f.profit - f.withholding);
  }

  /** Without the 4x1000 both taxes are zero and the final value is the subtotal. */
  lemma NoTaxWhenNotApplied(invested: int, grossTotal: int, pct: real)
    ensures var f := Deductions(invested, grossTotal, pct, false);
      && f.profitTax == 0 && f.tax4x1000 == 0
      && f.netProfitInfo == f.profit - f.withholding
      && f.finalValue == f.subtotal
  {
  }

  /**
   * A percentage between 0 and 100 withholds between nothing and the whole
   * profit, and the 4x1000 of a non-negative total lies between 0 and the total.
   */
  lemma DeductionBounds(invested: int, grossTotal: int, pct: real, applies: bool)
    requires 0.0 <= pct <= 100.0
    requires grossTotal >= invested
    ensures var f := Deductions(invested, grossTotal, pct, applies);
      && 0 <= f.withholding <= f.profit
      && f.subtotal >= invested
      && (grossTotal >= 0 ==> 0 <= f.tax4x1000 <= grossTotal)
  {
    var profit := grossTotal - invested;
    var x := profit as real * pct / 100.0;
    assert 0.0 <= x <= profit as real by {
      assert profit as real * pct <= profit as real * 100.0;
    }
    if grossTotal >= 0 {
      PerMille4Bounds(grossTotal);
    }
  }

  /**
   * 1,000,000 invested that grows to 1,100,000, with 4% withheld and the
   * 4x1000 applied: 4,000 withheld, 4,400 of 4x1000, 1,091,600 final value.
   */
  lemma DeductionsExample()
    ensures Deductions(1000000, 1100000, 4.0, true) ==
      Figures(100000, 1100000, 4000, 384, 95616, 1096000, 4400, 1091600, 91600)
  {
    RoundIs(100000.0 * 4.0 / 100.0, 4000);
    PerMille4Integer(96000);
    PerMille4Integer(1100000);
  }

  /** calcularInversion: validate the form, then compute the figures from the gross total. */
  function Calculate(i: Input, grossTotal: int): (r: Result<Figures, InputError>)
    ensures r.Err? <==> Validate(i).Some?
    ensures r.Err? ==> r.error == Validate(i).value
    ensures r.Ok? ==> r.value.grossTotal == grossTotal && r.value.profit == grossTotal - i.invested
    ensures r.Ok? ==> r.value == Deductions(i.invested, grossTotal, i.withholdingPct, i.applies4x1000)
  {
    match Validate(i)
    case Some(e) => Err(e)
    case None => Ok(Deductions(i.invested, grossTotal, i.withholdingPct, i.applies4x1000))
  }

  // ---------------------------------------------------------------------------
  // parseNumeroFormateado
  // ---------------------------------------------------------------------------

  /** The number written in s once everything but its decimal digits is dropped; 0 without digits. */
  function ParseFormatted(s: string): nat
  {
    DecimalValue(Digits(s))
  }

  /** Separators and other non-digits do not change the value read. */
  lemma ParseSkipsSeparator(a: string, c: char, b: string)
    requires !IsDigit(c)
    ensures ParseFormatted(a + [c] + b) == ParseFormatted(a + b)
  {
    DigitsAppend(a + [c], b);
    DigitsAppend(a, [c]);
    DigitsAppend(a, b);
    assert [c][..0] == [];
    assert Digits([c]) == [];
    assert Digits(a + [c]) == Digits(a);
    assert Digits(a + [c] + b) == Digits(a + b);
  }

  /** Input without any digit (the empty string included) reads as 0. */
  lemma ParseNoDigits(s: string)
    requires forall k :: 0 <= k < |s| ==> !IsDigit(s[k])
    ensures ParseFormatted(s) == 0
  {
    DigitsNone(s);
  }

  lemma {:induction false} DigitsNone(s: string)
    requires forall k :: 0 <= k < |s| ==> !IsDigit(s[k])
    ensures Digits(s) == []
  {
    if s != [] {
      DigitsNone(s[..|s| - 1]);
    }
  }

  /** The plain decimal writing of n reads back as n. */
  lemma ParseDecimal(n: nat)
    ensures ParseFormatted(DecimalString(n)) == n
  {
    DigitsKeepsDigits(DecimalString(n));
    DecimalRoundTrip(n);
  }

  // ---------------------------------------------------------------------------
  // History records, de-duplicating merge and newest-first order
  // ---------------------------------------------------------------------------

  /** One saved consultation; id and consulted are timestamps in milliseconds. */
  datatype Record = Record(id: int, consulted: int, input: Input, figures: Figures)

  /** guardarEnHistorial keeps at most this many records. */
  const MaxRecords: nat := 100

  function Ids(h: seq<Record>): set<int>
  {
    set k | 0 <= k < |h| :: h[k].id
  }

  predicate UniqueIds(h: seq<Record>)
  {
    forall i, j :: 0 <= i < j < |h| ==> h[i].id != h[j].id
  }

  /** eliminarRegistro's filter: the records whose id differs from id. */
  function WithoutId(h: seq<Record>, id: int): seq<Record>
  {
    Filter(h, (r: Record) => r.id != id)
  }

  /** Deleting removes exactly the records with that id and keeps every other one. */
  lemma WithoutIdRemoves(h: seq<Record>, id: int)
    ensures id !in Ids(WithoutId(h, id))
    ensures forall k :: 0 <= k < |h| && h[k].id != id ==> h[k] in WithoutId(h, id)
    ensures forall k :: 0 <= k < |WithoutId(h, id)| ==> WithoutId(h, id)[k] in h
    ensures id !in Ids(h) ==> WithoutId(h, id) == h
  {
    var keep := (r: Record) => r.id != id;
    if id !in Ids(h) {
      forall k | 0 <= k < |h| ensures keep(h[k]) {
        assert h[k].id in Ids(h);
      }
      FilterKeepsAll(h, keep);
    }
  }

  lemma IdsAppend(h: seq<Record>, r: Record)
    ensures Ids(h + [r]) == Ids(h) + {r.id}
  {
    var s := h + [r];
    forall x | x in Ids(s) ensures x in Ids(h) + {r.id} {
      var k :| 0 <= k < |s| && s[k].id == x;
      if k < |h| {
        assert h[k] == s[k];
      }
    }
    forall x | x in Ids(h) ensures x in Ids(s) {
      var k :| 0 <= k < |h| && h[k].id == x;
      assert s[k] == h[k];
    }
    assert s[|h|] == r;
  }

  /**
   * The import's merge: the existing records, then every imported record
   * whose id is not yet among the records kept so far, in file order.
   */
  function MergeNew(existing: seq<Record>, incoming: seq<Record>): (m: seq<Record>)
    ensures |existing| <= |m| <= |existing| + |incoming|
    ensures m[..|existing|] == existing
  {
    if incoming == [] then existing
    else
      var kept := MergeNew(existing, incoming[..|incoming| - 1]);
      var r := incoming[|incoming| - 1];
      if r.id in Ids(kept) then kept else kept + [r]
  }

  /**
   * Every id of the result was an existing or an imported id, and every
   * imported id ends up in the result.
   */
  lemma {:induction false} MergeIds(existing: seq<Record>, incoming: seq<Record>)
    ensures Ids(MergeNew(existing, incoming)) == Ids(existing) + Ids(incoming)
  {
    if incoming != [] {
      var init := incoming[..|incoming| - 1];
      var r := incoming[|incoming| - 1];
      var kept := MergeNew(existing, init);
      MergeIds(existing, init);
      IdsAppend(init, r);
      assert incoming == init + [r];
      if r.id !in Ids(kept) {
        IdsAppend(kept, r);
      }
    }
  }

  /**
   * The records the merge adds come from the file, carry ids that were not
   * present before, and no two of them share an id.
   */
  lemma {:induction false} MergeAddsOnlyNew(existing: seq<Record>, incoming: seq<Record>)
    ensures AddedAreNew(MergeNew(existing, incoming), |existing|, incoming)
  {
    if incoming != [] {
      var init := incoming[..|incoming| - 1];
      var r := incoming[|incoming| - 1];
      var kept := MergeNew(existing, init);
      var m := MergeNew(existing, incoming);
      MergeAddsOnlyNew(existing, init);
      assert AddedAreNew(kept, |existing|, init);
      assert incoming == init + [r];
      assert m == kept || (m == kept + [r] && r.id !in Ids(kept));
      forall k | |existing| <= k < |m| ensures m[k] in incoming && m[k].id !in Ids(m[..k]) {
        if k < |kept| {
          assert m[k] == kept[k] && m[..k] == kept[..k];
          assert kept[k] in init && kept[k].id !in Ids(kept[..k]);
        } else {
          assert m[..k] == kept;
        }
      }
    }
  }

  /** The records of m from position n on come from incoming, each with an id not seen before it. */
  predicate AddedAreNew(m: seq<Record>, n: nat, incoming: seq<Record>)
  {
    forall k :: n <= k < |m| ==> m[k] in incoming && m[k].id !in Ids(m[..k])
  }

  /** Ids that were unique stay unique: the merge never duplicates an id. */
  lemma MergeKeepsUnique(existing: seq<Record>, incoming: seq<Record>)
    requires UniqueIds(existing)
    ensures UniqueIds(MergeNew(existing, incoming))
  {
    var m := MergeNew(existing, incoming);
    MergeAddsOnlyNew(existing, incoming);
    assert AddedAreNew(m, |existing|, incoming);
    forall i, j | 0 <= i < j < |m| ensures m[i].id != m[j].id {
      if j >= |existing| {
        assert m[i].id in Ids(m[..j]) by {
          assert m[..j][i] == m[i];
        }
      } else {
        assert m[i] == existing[i] && m[j] == existing[j];
      }
    }
  }

  /** A file that brings no new id leaves the records as they were (nothing is added). */
  lemma {:induction false} MergeNothingNew(existing: seq<Record>, incoming: seq<Record>)
    requires Ids(incoming) <= Ids(existing)
    ensures MergeNew(existing, incoming) == existing
  {
    if incoming != [] {
      var init := incoming[..|incoming| - 1];
      var r := incoming[|incoming| - 1];
      IdsAppend(init, r);
      assert incoming == init + [r];
      MergeNothingNew(existing, init);
    }
  }

  /**
   * The merge loop of importarJSON: start from a copy of the history and
   * append each imported record whose id is not yet present, counting them.
   */
  method MergeImported(existing: seq<Record>, incoming: seq<Record>)
    returns (combined: seq<Record>, added: nat)
    ensures combined == MergeNew(existing, incoming)
    ensures added == |combined| - |existing|
  {
    combined := existing;
    added := 0;
    var k := 0;
    while k < |incoming|
      invariant 0 <= k <= |incoming|
      invariant combined == MergeNew(existing, incoming[..k])
      invariant added == |combined| - |existing|
    {
      var r := incoming[k];
      assert incoming[..k + 1][..k] == incoming[..k];
      if r.id !in Ids(combined) {
        combined := combined + [r];
        added := added + 1;
      }
      k := k + 1;
    }
    assert incoming[..|incoming|] == incoming;
  }

  /** Newest consultation first. */
  predicate NewestFirst(h: seq<Record>)
  {
    forall i, j :: 0 <= i < j < |h| ==> h[i].consulted >= h[j].consulted
  }

  /** r placed before the first record that is not newer than it. */
  function InsertByDate(r: Record, h: seq<Record>): (out: seq<Record>)
    ensures |out| == |h| + 1
    ensures multiset(out) == multiset(h) + multiset{r}
    ensures out[0] == r || (h != [] && out[0] == h[0])
    ensures NewestFirst(h) ==> NewestFirst(out)
  {
    if h == [] || h[0].consulted <= r.consulted then [r] + h
    else
      var rest := InsertByDate(r, h[1..]);
      InsertBehind(r, h, rest);
      [h[0]] + rest
  }

  /** Keeping h[0] in front of the insertion into the rest keeps the order and the records. */
  lemma InsertBehind(r: Record, h: seq<Record>, rest: seq<Record>)
    requires h != [] && h[0].consulted > r.consulted
    requires multiset(rest) == multiset(h[1..]) + multiset{r}
    requires rest != [] && (rest[0] == r || (h[1..] != [] && rest[0] == h[1..][0]))
    requires NewestFirst(h[1..]) ==> NewestFirst(rest)
    ensures multiset([h[0]] + rest) == multiset(h) + multiset{r}
    ensures NewestFirst(h) ==> NewestFirst([h[0]] + rest)
  {
    assert h == [h[0]] + h[1..];
    if NewestFirst(h) {
      assert NewestFirst(h[1..]) by {
        forall i, j | 0 <= i < j < |h[1..]| ensures h[1..][i].consulted >= h[1..][j].consulted {
          assert h[1..][i] == h[i + 1] && h[1..][j] == h[j + 1];
        }
      }
      var out := [h[0]] + rest;
      forall j | 0 < j < |out| ensures out[0].consulted >= out[j].consulted {
        assert out[j] in multiset(rest);
        assert out[j] == r || out[j] in multiset(h[1..]);
        if out[j] != r {
          var k :| 0 <= k < |h[1..]| && h[1..][k] == out[j];
          assert h[k + 1] == out[j];
        }
      }
    }
  }

  /**
   * The import's sort by consultation date, newest first. Built by insertion
   * from the back, records with equal dates keep their relative order, as
   * JavaScript's stable sort keeps them.
   */
  function SortNewestFirst(h: seq<Record>): (out: seq<Record>)
    ensures multiset(out) == multiset(h)
    ensures NewestFirst(out)
  {
    if h == [] then []
    else
      assert h == [h[0]] + h[1..];
      InsertByDate(h[0], SortNewestFirst(h[1..]))
  }

  /** A history already newest first is left exactly as it is. */
  lemma {:induction false} SortKeepsOrdered(h: seq<Record>)
    requires NewestFirst(h)
    ensures SortNewestFirst(h) == h
  {
    if h != [] {
      SortKeepsOrdered(h[1..]);
      assert h == [h[0]] + h[1..];
    }
  }

  /** Sorting keeps every id, so it neither loses nor creates records. */
  lemma SortKeepsIds(h: seq<Record>)
    ensures Ids(SortNewestFirst(h)) == Ids(h)
  {
    var s := SortNewestFirst(h);
    forall x | x in Ids(s) ensures x in Ids(h) {
      var k :| 0 <= k < |s| && s[k].id == x;
      assert s[k] in multiset(h);
      var j :| 0 <= j < |h| && h[j] == s[k];
    }
    forall x | x in Ids(h) ensures x in Ids(s) {
      var k :| 0 <= k < |h| && h[k].id == x;
      assert h[k] in multiset(s);
      var j :| 0 <= j < |s| && s[j] == h[k];
    }
  }

  // ---------------------------------------------------------------------------
  // The JSON file an import reads
  // ---------------------------------------------------------------------------

  /** The parsed file; history is None when "historial" is missing or not an array. */
  datatype ImportFile = ImportFile(history: Option<seq<JsonRecord<Record>>>)

  datatype ImportError = NotJson | NotAHistory | MalformedRecords

  /** What an import did: refused the file, was declined, or merged (with the new-record count). */
  datatype ImportOutcome = Failed(error: ImportError) | Declined | Imported(added: nat)

  /** The keys every imported record must have. */
  const RequiredFields: set<string> := {"id", "fechaConsulta", "valorInvertido", "tasaEA"}


  /**
   * The checks before the confirmation: the text parsed as JSON, its
   * "historial" is an array, and every record has the required keys.
   */
  function CheckImport(data: Option<ImportFile>): (r: Result<seq<Record>, ImportError>)
    ensures r.Ok? <==>
              data.Some? && data.value.history.Some?
              && forall k :: 0 <= k < |data.value.history.value| ==>
                   RequiredFields <= data.value.history.value[k].fields
    ensures r.Ok? ==> r.value == RecordsOf(data.value.history.value)
    ensures r == Err(NotJson) <==> data.None?
    ensures r == Err(NotAHistory) <==> data.Some? && data.value.history.None?
  {
    match data
    case None => Err(NotJson)
    case Some(file) =>
      match file.history
      case None => Err(NotAHistory)
      case Some(js) =>
        if forall k :: 0 <= k < |js| ==> RequiredFields <= js[k].fields then Ok(RecordsOf(js))
        else Err(MalformedRecords)
  }

  /** The merged, sorted history an accepted import leaves. */
  function ImportedHistory(existing: seq<Record>, incoming: seq<Record>): seq<Record>
  {
    SortNewestFirst(MergeNew(existing, incoming))
  }

  /**
   * After an accepted import the history is newest first, every previous
   * record is still there, every imported id is present, ids that were
   * unique stay unique, and the list is not cut to MaxRecords.
   */
  lemma ImportedHistoryFacts(existing: seq<Record>, incoming: seq<Record>)
    ensures NewestFirst(ImportedHistory(existing, incoming))
    ensures multiset(existing) <= multiset(ImportedHistory(existing, incoming))
    ensures Ids(ImportedHistory(existing, incoming)) == Ids(existing) + Ids(incoming)
    ensures UniqueIds(existing) ==>
              |ImportedHistory(existing, incoming)| == |Ids(existing) + Ids(incoming)|
  {
    var m := MergeNew(existing, incoming);
    var h := SortNewestFirst(m);
    assert multiset(h) == multiset(m);
    assert m == existing + m[|existing|..];
    assert multiset(m) == multiset(existing) + multiset(m[|existing|..]);
    MergeIds(existing, incoming);
    SortKeepsIds(m);
    if UniqueIds(existing) {
      assert |h| == |multiset(h)| == |multiset(m)| == |m|;
      MergeKeepsUnique(existing, incoming);
      UniqueIdsCount(m);
    }
  }

  /** With unique ids there are as many records as ids. */
  lemma {:induction false} UniqueIdsCount(h: seq<Record>)
    requires UniqueIds(h)
    ensures |Ids(h)| == |h|
  {
    if h != [] {
      var init := h[..|h| - 1];
      var r := h[|h| - 1];
      assert h == init + [r];
      UniqueIdsCount(init);
      IdsAppend(init, r);
    }
  }

  // ---------------------------------------------------------------------------
  // The history held by the calculator
  // ---------------------------------------------------------------------------

  /** The calculator's history list (this.historial), newest first. */
  class InvestmentHistory {
    var records: seq<Record>

    /** cargarHistorial: start from the saved list. */
    constructor (saved: seq<Record>)
      ensures records == saved
    {
      records := saved;
    }

    /** guardarEnHistorial: put the new consultation first and keep the newest MaxRecords. */
    method Save(id: int, consulted: int, input: Input, figures: Figures)
      modifies this
      ensures records == PrependCapped(old(records), Record(id, consulted, input, figures), MaxRecords)
    {
      records := [Record(id, consulted, input, figures)] + records;
      if |records| > MaxRecords {
        records := records[..MaxRecords];
      }
    }

    /** eliminarRegistro: drop every record with this id. */
    method Delete(id: int)
      modifies this
      ensures records == WithoutId(old(records), id)
    {
      records := WithoutId(records, id);
    }

    /** limpiarHistorial: empty a non-empty history once the user confirms. */
    method Clear(confirmed: bool) returns (cleared: bool)
      modifies this
      ensures cleared <==> old(records) != [] && confirmed
      ensures records == if cleared then [] else old(records)
    {
      cleared := false;
      if records == [] {
        return;
      }
      if confirmed {
        records := [];
        cleared := true;
      }
    }

    /**
     * importarJSON after the file has been read: refuse a malformed file,
     * do nothing if the user declines, otherwise merge by id, sort newest
     * first and report how many records were new.
     */
    method ImportJson(data: Option<ImportFile>, confirmed: bool) returns (outcome: ImportOutcome)
      modifies this
      ensures CheckImport(data).Err? ==> outcome == Failed(CheckImport(data).error)
      ensures CheckImport(data).Ok? && !confirmed ==> outcome == Declined
      ensures outcome.Imported? <==> CheckImport(data).Ok? && confirmed
      ensures outcome.Imported? ==>
                var incoming := CheckImport(data).value;
                && records == ImportedHistory(old(records), incoming)
                && outcome.added == |MergeNew(old(records), incoming)| - |old(records)|
      ensures !outcome.Imported? ==> records == old(records)
    {
      var checked := CheckImport(data);
      if checked.Err? {
        return Failed(checked.error);
      }
      if !confirmed {
        return Declined;
      }
      var combined, added := MergeImported(records, checked.value);
      records := SortNewestFirst(combined);
      outcome := Imported(added);
    }
  }
}
