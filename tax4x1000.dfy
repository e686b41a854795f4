/**
 * The 4x1000 calculator (Calculadora4x1000): the tax on a transaction value
 * and the net amount left after it, and the history list with its save,
 * delete, clear and replace-on-import operations.
 */
module Tax4x1000 {
  import opened Wrappers
  import opened Rounding
  import opened Text
  import opened HistoryLog

  /** The largest value calcular accepts. */
  const MaxValue: nat := 999999999

  /** guardarEnHistorial keeps at most this many records. */
  const MaxRecords: nat := 50

  datatype Calculation = Calculation(value: nat, tax: int, total: int)

  datatype CalcError = InvalidValue | TooLarge

  /**
   * calcular on the text typed in the field: only its decimal digits count;
   * no digits, or exactly "0", is refused; a value above MaxValue is refused;
   * otherwise the tax is the rounded 4x1000 and the total is the value less the tax.
   */
  function Compute(input: string): (r: Result<Calculation, CalcError>)
    ensures r.Ok? ==> r.value.value <= MaxValue && r.value.tax + r.value.total == r.value.value
  {
    var text := Digits(input);
    if text == [] || text == "0" then Err(InvalidValue)
    else
      var v := DecimalValue(text);
      if v > MaxValue then Err(TooLarge)
      else Ok(Calculation(v, PerMille4(v), v - PerMille4(v)))
  }

  /**
   * Which inputs are accepted: those whose digits are neither absent nor
   * exactly "0" and denote at most MaxValue; the refusal reason otherwise.
   */
  lemma ComputeAccepts(input: string)
    ensures var text := Digits(input);
      && (Compute(input) == Err(InvalidValue) <==> text == [] || text == "0")
      && (Compute(input) == Err(TooLarge) <==>
            text != [] && text != "0" && DecimalValue(text) > MaxValue)
      && (Compute(input).Ok? <==>
            text != [] && text != "0" && DecimalValue(text) <= MaxValue)
  {
  }

  /**
   * An accepted value's tax is (4v + 500) / 1000, lies between 0 and the
   * value, and the total is never negative.
   */
  lemma ComputeAmounts(input: string)
    requires Compute(input).Ok?
    ensures var c := Compute(input).value;
      && c.value == DecimalValue(Digits(input))
      && c.tax == (4 * c.value + 500) / 1000
      && 0 <= c.tax <= c.value
      && 0 <= c.total <= c.value
  {
    var v := Compute(input).value.value;
    PerMille4Integer(v);
    PerMille4Bounds(v);
  }

  /** "00" gets past the check that refuses "0" and computes with the value 0. */
  lemma DoubleZeroAccepted()
    ensures Compute("00") == Ok(Calculation(0, 0, 0))
  {
    assert Digits("0") == Digits([]) + "0";
    assert "00"[..1] == "0";
    assert Digits("00") == "00";
    assert "00"[..|"00"| - 1] == "0";
    assert DecimalValue("00") == 0;
    PerMille4Integer(0);
  }

  /** Separators typed in the field do not change the outcome. */
  lemma ComputeSkipsSeparator(a: string, c: char, b: string)
    requires !IsDigit(c)
    ensures Compute(a + [c] + b) == Compute(a + b)
  {
    DigitsAppend(a + [c], b);
    DigitsAppend(a, [c]);
    DigitsAppend(a, b);
    assert [c][..0] == [];
    assert Digits([c]) == [];
    assert Digits(a + [c]) == Digits(a);
    assert Digits(a + [c] + b) == Digits(a + b);
  }

  // ---------------------------------------------------------------------------
  // History
  // ---------------------------------------------------------------------------

  /**
   * One saved calculation. Records saved here always have an id; imported
   * records need not (the import does not require the key).
   */
  datatype Record = Record(id: Option<int>, date: string, value: int, tax: int, total: int)

  /**
   * eliminarRegistro's filter: the records whose id differs from id. The
   * delete button of a record without an id passes undefined (None here),
   * which matches every record that has no id.
   */
  function WithoutId(h: seq<Record>, id: Option<int>): seq<Record>
  {
    Filter(h, (r: Record) => r.id != id)
  }

  /** Deleting removes exactly the records carrying that id and keeps every other one. */
  lemma WithoutIdRemoves(h: seq<Record>, id: Option<int>)
    ensures forall k :: 0 <= k < |WithoutId(h, id)| ==>
              WithoutId(h, id)[k].id != id && WithoutId(h, id)[k] in h
    ensures forall k :: 0 <= k < |h| && h[k].id != id ==> h[k] in WithoutId(h, id)
  {
  }

  /**
   * Deleting from the row of a record without an id drops every record
   * without an id, and keeps exactly the records that have one, in order.
   */
  lemma DeleteWithoutIdDropsAllIdless(h: seq<Record>)
    ensures forall k :: 0 <= k < |WithoutId(h, None)| ==> WithoutId(h, None)[k].id.Some?
    ensures forall k :: 0 <= k < |h| && h[k].id.Some? ==> h[k] in WithoutId(h, None)
    ensures (forall k :: 0 <= k < |h| ==> h[k].id.Some?) ==> WithoutId(h, None) == h
  {
    if forall k :: 0 <= k < |h| ==> h[k].id.Some? {
      FilterKeepsAll(h, (r: Record) => r.id != None);
    }
  }

  /**
   * Deleting works piece by piece, so the kept records stay in their order;
   * a history without that id is left as it is.
   */
  lemma WithoutIdKeepsOrder(x: seq<Record>, y: seq<Record>, id: Option<int>)
    ensures WithoutId(x + y, id) == WithoutId(x, id) + WithoutId(y, id)
    ensures (forall k :: 0 <= k < |x| ==> x[k].id != id) ==> WithoutId(x, id) == x
  {
    var keep := (r: Record) => r.id != id;
    FilterAppend(x, y, keep);
    if forall k :: 0 <= k < |x| ==> x[k].id != id {
      FilterKeepsAll(x, keep);
    }
  }

  /** The parsed file: its "tipo" and its "historial" (None when not an array). */
  datatype ImportData = ImportData(kind: Option<string>, history: Option<seq<JsonRecord<Record>>>)

  /** The keys every imported record must have ("id" is not among them). */
  const RequiredFields: set<string> := {"fecha", "valorTransaccion", "cuatroPorMil", "total"}

  /** validarDatosImportados; data is None when the file held null. */
  predicate ValidImport(data: Option<ImportData>)
  {
    && data.Some?
    && data.value.kind == Some("calculadora_4x1000")
    && data.value.history.Some?
    && forall k :: 0 <= k < |data.value.history.value| ==>
         RequiredFields <= data.value.history.value[k].fields
  }

  /** A file of any kind but "calculadora_4x1000" is refused, whatever its records. */
  lemma ValidImportNeedsKind(data: Option<ImportData>)
    requires data.Some? && data.value.kind != Some("calculadora_4x1000")
    ensures !ValidImport(data)
  {
  }

  /** A record need not carry an id to pass. */
  lemma ValidImportWithoutId(date: string, value: int, tax: int, total: int)
    ensures ValidImport(Some(ImportData(Some("calculadora_4x1000"),
                                        Some([JsonRecord(RequiredFields, Record(None, date, value, tax, total))]))))
  {
  }


  datatype ImportError = NotJsonFile | NotJson | BadFormat

  datatype ImportOutcome = Failed(error: ImportError) | Declined | Replaced

  predicate EndsWith(s: string, suffix: string)
  {
    |suffix| <= |s| && s[|s| - |suffix|..] == suffix
  }

  /** The calculator's history list (this.historial), newest first. */
  class TaxHistory {
    var records: seq<Record>

    /** cargarHistorial: start from the saved list. */
    constructor (saved: seq<Record>)
      ensures records == saved
    {
      records := saved;
    }

    /**
     * calcular followed by guardarEnHistorial: on an accepted input the
     * new record goes first and only the newest MaxRecords are kept; a
     * refused input leaves the history as it was.
     */
    method Calculate(input: string, now: int, date: string) returns (r: Result<Calculation, CalcError>)
      modifies this
      ensures r == Compute(input)
      ensures r.Err? ==> records == old(records)
      ensures r.Ok? ==> records == PrependCapped(old(records),
                          Record(Some(now), date, r.value.value, r.value.tax, r.value.total), MaxRecords)
    {
      r := Compute(input);
      if r.Ok? {
        Save(Record(Some(now), date, r.value.value, r.value.tax, r.value.total));
      }
    }

    /** guardarEnHistorial: put the record first and keep the newest MaxRecords. */
    method Save(rec: Record)
      modifies this
      ensures records == PrependCapped(old(records), rec, MaxRecords)
    {
      records := [rec] + records;
      if |records| > MaxRecords {
        records := records[..MaxRecords];
      }
    }

    /**
     * eliminarRegistro with the id its row's button passes: drop every record
     * carrying that id; None (a record without an id) drops every id-less record.
     */
    method Delete(id: Option<int>)
      modifies this
      ensures records == WithoutId(old(records), id)
    {
      records := WithoutId(records, id);
    }

    /** limpiarHistorial: empty a non-empty history once the user confirms. */
    method Clear(confirmed: bool) returns (cleared: bool)
      modifies this
      ensures cleared <==> old(records) != [] && confirmed
      ensures records == if cleared then [] else old(records)
    {
      cleared := false;
      if records == [] {
        return;
      }
      if confirmed {
        records := [];
        cleared := true;
      }
    }

    /**
     * procesarArchivoImportado once a file is chosen: the name must end in
     * ".json", the text must parse, the data must pass validarDatosImportados,
     * and the user must confirm; the imported list then replaces the history
     * as it is, without merging, de-duplicating or capping.
     */
    method Import(fileName: string, data: Option<Option<ImportData>>, confirmed: bool)
      returns (outcome: ImportOutcome)
      modifies this
      ensures !EndsWith(fileName, ".json") ==> outcome == Failed(NotJsonFile)
      ensures EndsWith(fileName, ".json") && data.None? ==> outcome == Failed(NotJson)
      ensures EndsWith(fileName, ".json") && data.Some? && !ValidImport(data.value) ==>
                outcome == Failed(BadFormat)
      ensures outcome.Replaced? <==> EndsWith(fileName, ".json") && data.Some? && ValidImport(data.value) && confirmed
      ensures outcome.Replaced? ==>
                records == RecordsOf(data.value.value.history.value)
      ensures !outcome.Replaced? ==> records == old(records)
    {
      if !EndsWith(fileName, ".json") {
        return Failed(NotJsonFile);
      }
      if data.None? {
        return Failed(NotJson);
      }
      if !ValidImport(data.value) {
        return Failed(BadFormat);
      }
      if !confirmed {
        return Declined;
      }
      var js := data.value.value.history.value;
      records := RecordsOf(js);
      outcome := Replaced;
    }
  }
}
