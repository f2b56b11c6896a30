/** The cleaning rules applied to the ingested CSV data before it is stored:
    default-filling of missing values, the date column rewrite, dropping
    rows whose date is missing, and the description normaliser.  Both
    cleaners change the DataFrame they are given and return that object. */
module MongoCleaning {
  import opened Common
  import opened TextRules
  import opened Frames

  /** The class `[a-z0-9 ]` of the description pattern: no tab, no newline. */
  predicate DescriptionChar(c: char) {
    IsLowerLetter(c) || IsDigit(c) || c == ' '
  }

  /** `re.sub(r'[^a-z0-9 ]', '', x)` applied to the lower-cased text. */
  function NormaliseDescription(s: string): (r: string)
    ensures forall i :: 0 <= i < |r| ==> IsLowerLetter(r[i]) || IsDigit(r[i]) || r[i] == ' '
    ensures IsSubsequence(r, Lower(s)) && |r| <= |s|
    ensures |r| == CountKept(Lower(s), DescriptionChar)
  {
    NormaliseShape(s, DescriptionChar);
    Normalise(s, DescriptionChar)
  }

  /** The normalised description is THE subsequence of the lower-cased
      input made of `[a-z0-9 ]` characters: any other string with the three
      properties of the contract above equals it. */
  lemma NormaliseDescriptionUnique(s: string, r: string)
    requires forall i :: 0 <= i < |r| ==> IsLowerLetter(r[i]) || IsDigit(r[i]) || r[i] == ' '
    requires IsSubsequence(r, Lower(s))
    requires |r| == CountKept(Lower(s), DescriptionChar)
    ensures r == NormaliseDescription(s)
  {
    FilterUnique(r, Lower(s), DescriptionChar);
  }

  /** Normalising a description twice changes nothing more. */
  lemma NormaliseDescriptionIdempotent(s: string)
    ensures NormaliseDescription(NormaliseDescription(s)) == NormaliseDescription(s)
  {
    NormaliseIdempotent(s, DescriptionChar);
  }

  /** The values `clean_transaction_data` fills in; `today` stands for
      `datetime.today().strftime('%Y-%m-%d')`. */
  function TransactionDefaults(today: string): map<string, Cell> {
    map["Amount" := Num(0.0), "Category" := Text("Unknown"), "Date" := Text(today)]
  }

  /** The values `clean_bureau_data` fills in: the median of the credit
      score column, and zero for the five other columns. */
  function BureauDefaults(creditMedian: Cell): map<string, Cell> {
    map[
      "Credit Score" := creditMedian,
      "Existing Loans" := Num(0.0),
      "Utilization" := Num(0.0),
      "Missed Payments (12M)" := Num(0.0),
      "Total Outstanding Debt" := Num(0.0),
      "Debt-to-Income Ratio" := Num(0.0)
    ]
  }

  /** What `pd.to_datetime` makes of one value: a date, rendered by
      `.dt.strftime('%Y-%m-%d')`; NaT; or a value it raises on. */
  datatype ParsedDate = Iso(text: string) | NaT | Unparseable

  /** The exceptions a cleaner lets escape. */
  datatype CleaningError = MissingColumn(name: string) | DateParseError

  /** `pd.to_datetime(col).dt.strftime('%Y-%m-%d')`: fails when some value
      cannot be parsed; otherwise dates become their ISO text and NaT
      becomes a missing value. */
  function ConvertDates(col: seq<Cell>, parse: Cell -> ParsedDate): (r: Option<seq<Cell>>)
    ensures r.None? <==> exists i :: 0 <= i < |col| && parse(col[i]) == Unparseable
    ensures r.Some? ==> |r.value| == |col|
    ensures r.Some? ==> forall i :: 0 <= i < |col| ==>
      r.value[i] == (if parse(col[i]).Iso? then Text(parse(col[i]).text) else Missing)
  {
    if col == [] then Some([])
    else
      var head := parse(col[0]);
      if head == Unparseable then None
      else match ConvertDates(col[1..], parse)
        case None =>
          assert forall i :: 0 <= i < |col| - 1 ==> col[1..][i] == col[i + 1];
          None
        case Some(rest) =>
          assert forall i :: 0 < i < |col| ==> col[i] == col[1..][i - 1];
          Some([if head.Iso? then Text(head.text) else Missing] + rest)
  }

  /** `df['Description'].astype(str).str.lower().apply(...)`: every value,
      missing ones included, becomes normalised text. */
  function NormaliseDescriptions(col: seq<Cell>, showNum: real -> string): (r: seq<Cell>)
    ensures |r| == |col|
    ensures forall i :: 0 <= i < |col| ==> r[i] == Text(NormaliseDescription(CellText(col[i], showNum)))
  {
    if col == [] then [] else [Text(NormaliseDescription(CellText(col[0], showNum)))] + NormaliseDescriptions(col[1..], showNum)
  }

  /** The frame's value after `clean_transaction_data`, and the exception
      that escaped it, if any (the frame keeps the changes made before it). */
  datatype Cleaned = Cleaned(table: Table, error: Option<CleaningError>)

  function CleanTransactions(t: Table, today: string, parse: Cell -> ParsedDate, showNum: real -> string): (c: Cleaned)
    requires WellFormed(t)
    ensures WellFormed(c.table)
  {
    var filled := FillNaTable(t, TransactionDefaults(today));
    match Column(filled, "Date")
    case None => Cleaned(filled, Some(MissingColumn("Date")))
    case Some(dates) =>
      match ConvertDates(dates, parse)
      case None => Cleaned(filled, Some(DateParseError))
      case Some(iso) =>
        var kept := DropMissingRows(SetColumn(filled, "Date", iso), "Date");
        if "Description" in kept.names then
          Cleaned(SetColumn(kept, "Description", NormaliseDescriptions(Column(kept, "Description").value, showNum)), None)
        else
          Cleaned(kept, None)
  }

  /** `clean_transaction_data(df)`: changes `df` and, when nothing is raised,
      returns the same object. */
  method CleanTransactionData(df: DataFrame, today: string, parse: Cell -> ParsedDate, showNum: real -> string)
    returns (r: Result<DataFrame, CleaningError>)
    requires df.Valid()
    modifies df
    ensures df.Valid()
    ensures var c := CleanTransactions(old(df.View()), today, parse, showNum);
      df.View() == c.table && r == (if c.error.None? then Success(df) else Failure(c.error.value))
  {
    df.FillNaInPlace(TransactionDefaults(today));
    var dates := df.Get("Date");
    if dates.None? {
      return Failure(MissingColumn("Date"));
    }
    var iso := ConvertDates(dates.value, parse);
    if iso.None? {
      return Failure(DateParseError);
    }
    df.Assign("Date", iso.value);
    df.DropNaInPlace("Date");
    if "Description" in df.names {
      var descriptions := df.Get("Description");
      df.Assign("Description", NormaliseDescriptions(descriptions.value, showNum));
    }
    return Success(df);
  }

  /** Filling: in the Amount, Category and Date columns a missing value
      becomes 0, "Unknown" and today's date; every value that was present,
      and every other column, is left as it was. */
  lemma TransactionFill(t: Table, today: string, m: string, i: nat)
    requires WellFormed(t) && m in t.names && i < t.height
    ensures var before := Column(t, m).value[i];
      var after := Column(FillNaTable(t, TransactionDefaults(today)), m).value[i];
      && (before != Missing ==> after == before)
      && (before == Missing && m == "Amount" ==> after == Num(0.0))
      && (before == Missing && m == "Category" ==> after == Text("Unknown"))
      && (before == Missing && m == "Date" ==> after == Text(today))
      && (m !in {"Amount", "Category", "Date"} ==> after == before)
  {
  }

  /** Without a Date column `pd.to_datetime(df['Date'])` raises KeyError
      after the frame has been filled. */
  lemma NoDateColumnFails(t: Table, today: string, parse: Cell -> ParsedDate, showNum: real -> string)
    requires WellFormed(t) && "Date" !in t.names
    ensures CleanTransactions(t, today, parse, showNum)
         == Cleaned(FillNaTable(t, TransactionDefaults(today)), Some(MissingColumn("Date")))
  {
  }

  /** A converted column has a missing value only where a date parsed to NaT. */
  lemma ConvertedHasNoMissing(col: seq<Cell>, parse: Cell -> ParsedDate)
    requires ConvertDates(col, parse).Some?
    requires forall x :: x in col ==> parse(x) != NaT
    ensures forall x :: x in ConvertDates(col, parse).value ==> x != Missing
  {
    var iso := ConvertDates(col, parse).value;
    forall x | x in iso ensures x != Missing {
      var i :| 0 <= i < |iso| && iso[i] == x;
      assert col[i] in col;
    }
  }

  /** On success the Date column holds parsed dates only, and a row is
      dropped only when its date parsed to NaT: when nothing parses to NaT
      no row is lost. */
  lemma SuccessfulCleaningKeepsRows(t: Table, today: string, parse: Cell -> ParsedDate, showNum: real -> string)
    requires WellFormed(t)
    requires CleanTransactions(t, today, parse, showNum).error.None?
    ensures var c := CleanTransactions(t, today, parse, showNum).table;
      && c.names == t.names
      && (forall x :: x in Column(c, "Date").value ==> x.Text?)
      && ((forall x :: x in Column(FillNaTable(t, TransactionDefaults(today)), "Date").value ==> parse(x) != NaT)
           ==> c.height == t.height)
  {
    var filled := FillNaTable(t, TransactionDefaults(today));
    var dates := Column(filled, "Date").value;
    var iso := ConvertDates(dates, parse).value;
    var dated := SetColumn(filled, "Date", iso);
    var kept := DropMissingRows(dated, "Date");
    assert Column(dated, "Date") == Some(iso);
    var mask := Present(iso);
    forall x | x in Column(kept, "Date").value ensures x.Text? {
      assert x in Select(iso, mask);
      assert x in iso;
      SelectPresentHasNoMissing(iso);
    }
    if forall x :: x in dates ==> parse(x) != NaT {
      ConvertedHasNoMissing(dates, parse);
      DropMissingRowsNoop(dated, "Date");
    }
    var c := CleanTransactions(t, today, parse, showNum).table;
    if "Description" in kept.names {
      assert Column(c, "Date") == Column(kept, "Date");
    }
  }

  /** After successful cleaning every description holds only `[a-z0-9 ]`. */
  lemma DescriptionsNormalised(t: Table, today: string, parse: Cell -> ParsedDate, showNum: real -> string)
    requires WellFormed(t)
    requires CleanTransactions(t, today, parse, showNum).error.None?
    ensures var c := CleanTransactions(t, today, parse, showNum).table;
      "Description" in c.names ==>
        forall x :: x in Column(c, "Description").value ==>
          x.Text? && forall k :: 0 <= k < |x.s| ==> DescriptionChar(x.s[k])
  {
    var c := CleanTransactions(t, today, parse, showNum).table;
    if "Description" in c.names {
      var col := Column(c, "Description").value;
      forall x | x in col ensures x.Text? && forall k :: 0 <= k < |x.s| ==> DescriptionChar(x.s[k]) {
        var i :| 0 <= i < |col| && col[i] == x;
      }
    }
  }

  /** The state `clean_bureau_data` leaves the frame in: KeyError when there
      is no Credit Score column (nothing changed), otherwise the filled frame. */
  function CleanBureau(t: Table, median: seq<Cell> -> Cell): (r: Result<Table, CleaningError>)
    requires WellFormed(t)
    ensures r.Failure? <==> "Credit Score" !in t.names
    ensures r.Failure? ==> r.error == MissingColumn("Credit Score")
    ensures r.Success? ==> WellFormed(r.value) && r.value.names == t.names && r.value.height == t.height
  {
    match Column(t, "Credit Score")
    case None => Failure(MissingColumn("Credit Score"))
    case Some(scores) => Success(FillNaTable(t, BureauDefaults(median(scores))))
  }

  /** `clean_bureau_data(df)`: fills `df` in place and returns the same object. */
  method CleanBureauData(df: DataFrame, median: seq<Cell> -> Cell) returns (r: Result<DataFrame, CleaningError>)
    requires df.Valid()
    modifies df
    ensures df.Valid()
    ensures match CleanBureau(old(df.View()), median)
      case Failure(e) => r == Failure(e) && df.View() == old(df.View())
      case Success(t) => r == Success(df) && df.View() == t
  {
    var scores := df.Get("Credit Score");
    if scores.None? {
      return Failure(MissingColumn("Credit Score"));
    }
    df.FillNaInPlace(BureauDefaults(median(scores.value)));
    return Success(df);
  }

  /** Filling the bureau frame: a missing credit score becomes the median of
      the original column, a missing value in the five other listed columns
      becomes 0, and present values and unlisted columns are unchanged. */
  lemma BureauFill(t: Table, median: seq<Cell> -> Cell, m: string, i: nat)
    requires WellFormed(t) && "Credit Score" in t.names && m in t.names && i < t.height
    ensures var before := Column(t, m).value[i];
      var after := Column(CleanBureau(t, median).value, m).value[i];
      && (before != Missing ==> after == before)
      && (before == Missing && m == "Credit Score" ==> after == median(Column(t, "Credit Score").value))
      && ((before == Missing && m in {"Existing Loans", "Utilization", "Missed Payments (12M)",
                                      "Total Outstanding Debt", "Debt-to-Income Ratio"})
           ==> after == Num(0.0))
      && (m !in BureauDefaults(Missing) ==> after == before)
  {
  }
}
