/**
 * The statement extractor of `getTransactions`: the rows of the rendered transaction
 * table become raw transactions (date text, description, parsed amount, credit/debit
 * from the amount cell's class), and those become `BankTransaction` records that share
 * the bank code and account number and carry an md5 external id over their six fields.
 */
module Statement {
  import opened Wrappers
  import opened JsText

  const BankCode: string := "BCA"

  /** A `td` of the statement table: its `innerText` and its class list. */
  datatype Td = Td(text: string, classes: set<string>)

  /** The `td`s of one `tbody tr`. */
  type Row = seq<Td>

  datatype TxType = CR | DB

  function TypeCode(t: TxType): string
  {
    match t
    case CR => "CR"
    case DB => "DB"
  }

  /**
   * `parseInt(text.replace(/[^0-9]/g, ""))`: the decimal value of the digits of `text`
   * taken together, NaN (`None`) when `text` has no digit at all.
   */
  function ParseAmount(text: string): (r: Option<nat>)
    ensures r.None? <==> forall i :: 0 <= i < |text| ==> !IsDigit(text[i])
    ensures r.Some? ==> r.value == DigitsValue(StripNonDigits(text))
  {
    var digits := StripNonDigits(text);
    StripNonDigitsKeepsDigits(text);
    var parsed := ParseInt(digits);
    assert parsed == if digits == [] then None else Some(DigitsValue(digits)) by {
      if digits == [] { ParseIntOfNoDigit(digits); } else { ParseIntOfDigits(digits); }
    }
    assert digits == [] <==> forall i :: 0 <= i < |text| ==> !IsDigit(text[i]) by {
      if digits != [] {
        assert digits[0] in digits;
      }
      if exists i :: 0 <= i < |text| && IsDigit(text[i]) {
        var i :| 0 <= i < |text| && IsDigit(text[i]);
        assert text[i] in text;
      }
    }
    match parsed
    case None => None
    case Some(v) => Some(v as nat)
  }

  /** The decimal rendering of an amount reads back as that amount. */
  lemma ParseAmountOfNatToString(n: nat)
    ensures ParseAmount(NatToString(n)) == Some(n)
  {
    StripNonDigitsOfDigits(NatToString(n));
    DigitsValueOfNatToString(n);
  }

  /**
   * Separators between the digits do not change the amount: "1.234.567,00" reads as
   * the digits "123456700" would.
   */
  lemma ParseAmountIgnoresSeparators(a: string, sep: string, b: string)
    requires forall i :: 0 <= i < |sep| ==> !IsDigit(sep[i])
    ensures ParseAmount(a + sep + b) == ParseAmount(a + b)
  {
    StripNonDigitsAppend(a + sep, b);
    StripNonDigitsAppend(a, sep);
    StripNonDigitsAppend(a, b);
    StripNonDigitsOfNoDigit(sep);
    assert StripNonDigits(a + sep + b) == StripNonDigits(a + b);
  }

  /** "Rp 1.234.567,00" reads as 123456700: the cents are digits like any other. */
  lemma ParseAmountOfRupiah()
    ensures ParseAmount("Rp 1.234.567,00") == Some(123456700)
  {
    StripRupiah();
    DigitsValueOf123456700();
    ParseAmountOfStripped("Rp 1.234.567,00", "123456700");
  }

  /** The amount is the value of the digits the text strips down to, when there are any. */
  lemma ParseAmountOfStripped(text: string, ds: string)
    requires StripNonDigits(text) == ds && |ds| > 0
    ensures ParseAmount(text) == Some(DigitsValue(ds))
  {
    StripNonDigitsKeepsDigits(text);
    assert ds[0] in text;
  }

  lemma StripRupiah()
    ensures StripNonDigits("Rp 1.234.567,00") == "123456700"
  {
    var x0 := "Rp 1";
    var x1 := x0 + "." + "234";
    var x2 := x1 + "." + "567";
    var x3 := x2 + "," + "00";
    assert x3 == "Rp 1.234.567,00";
    StripNonDigitsAppend("Rp ", "1");
    assert "Rp " + "1" == x0;
    StripNonDigitsOfNoDigit("Rp ");
    StripSeparated(x0, ".", "234");
    StripSeparated(x1, ".", "567");
    StripSeparated(x2, ",", "00");
    StripNonDigitsOfDigits("1");
    StripNonDigitsOfDigits("234");
    StripNonDigitsOfDigits("567");
    StripNonDigitsOfDigits("00");
    assert [] + "1" + "234" + "567" + "00" == "123456700";
  }

  /** A digit-free separator between two texts contributes nothing. */
  lemma StripSeparated(x: string, sep: string, y: string)
    requires forall i :: 0 <= i < |sep| ==> !IsDigit(sep[i])
    ensures StripNonDigits(x + sep + y) == StripNonDigits(x) + StripNonDigits(y)
  {
    StripNonDigitsOfNoDigit(sep);
    StripNonDigitsAppend(x, sep);
    StripNonDigitsAppend(x + sep, y);
    assert StripNonDigits(x) + [] == StripNonDigits(x);
  }

  lemma DigitsValueOf123456700()
    ensures DigitsValue("123456700") == 123456700
  {
    assert DigitsValue("1") == 1;
    assert "12"[..1] == "1";
    assert "123"[..2] == "12";
    assert "1234"[..3] == "123";
    assert "12345"[..4] == "1234";
    assert "123456"[..5] == "12345";
    assert "1234567"[..6] == "123456";
    assert "12345670"[..7] == "1234567";
    assert "123456700"[..8] == "12345670";
  }

  /** Trimming the text first does not change the amount: white space holds no digit. */
  lemma ParseAmountOfTrim(s: string)
    ensures ParseAmount(Trim(s)) == ParseAmount(s)
  {
    StripNonDigitsOfTrim(s);
  }

  /** A row whose amount cell carries `text-danger` is a credit, any other row a debit. */
  function TypeOf(amountCell: Td): (t: TxType)
    ensures t == CR <==> "text-danger" in amountCell.classes
  {
    if "text-danger" in amountCell.classes then CR else DB
  }

  /** The object the in-page `trs.map(...)` builds for one row. */
  datatype RawTransaction = RawTransaction(date: string, description: string, amount: Option<nat>, txType: TxType)

  /**
   * One row: date from the first cell, description from the second, amount and type
   * from the third; a row with fewer than three cells throws (`None`).
   */
  function ParseRow(tds: Row): (r: Option<RawTransaction>)
    ensures r.Some? <==> |tds| >= 3
    ensures r.Some? ==> r.value.date == tds[0].text && r.value.description == tds[1].text
    ensures r.Some? ==> r.value.amount == ParseAmount(tds[2].text)
    ensures r.Some? ==> (r.value.txType == CR <==> "text-danger" in tds[2].classes)
  {
    if |tds| < 3 then None
    else Some(RawTransaction(tds[0].text, tds[1].text, ParseAmount(tds[2].text), TypeOf(tds[2])))
  }

  /**
   * `trs.map(...)` over the table's rows: one raw transaction per row, in table order;
   * one malformed row makes the whole extraction throw.
   */
  function ExtractRows(rows: seq<Row>): (r: Option<seq<RawTransaction>>)
    ensures r.Some? <==> forall i :: 0 <= i < |rows| ==> |rows[i]| >= 3
    ensures r.Some? ==> |r.value| == |rows|
  {
    if forall i :: 0 <= i < |rows| ==> |rows[i]| >= 3 then
      Some(seq(|rows|, i requires 0 <= i < |rows| => ParseRow(rows[i]).value))
    else None
  }

  /** Each raw transaction is the parse of the row at the same position. */
  lemma ExtractRowsAt(rows: seq<Row>)
    ensures var r := ExtractRows(rows);
      r.Some? ==> forall i :: 0 <= i < |rows| ==> ParseRow(rows[i]) == Some(r.value[i])
  {
  }

  /** What `formatterDateBca` passes to `new Date(...)`: the year and the month and day pieces. */
  datatype BcaDate = BcaDate(year: int, month: Option<string>, day: string)

  /**
   * `formatterDateBca(dateStr)` with `new Date().getFullYear()` supplied as
   * `currentYear`: the day is the text before the first "/", the month the text after it
   * (up to a second "/"), missing when `dateStr` has no "/".
   */
  function FormatterDateBca(dateStr: string, currentYear: int): (d: BcaDate)
    ensures d.year == currentYear
    ensures d.day <= dateStr && forall j: nat :: !OccursAt(d.day, "/", j)
    ensures d.month.None? <==> forall j: nat :: !OccursAt(dateStr, "/", j)
  {
    var parts := Split(dateStr, "/");
    SplitPiecesFree(dateStr, "/");
    IndexOfSpec(dateStr, "/");
    BcaDate(currentYear, if |parts| > 1 then Some(parts[1]) else None, parts[0])
  }

  /** "DD/MM" splits into day "DD" and month "MM" of the supplied year. */
  lemma FormatterDateBcaOfDayMonth(day: string, month: string, currentYear: int)
    requires '/' !in day && '/' !in month
    ensures FormatterDateBca(day + "/" + month, currentYear) == BcaDate(currentYear, Some(month), day)
  {
    SplitAtFirst(day, "/", month);
    SplitOfNoSeparatorChar(month, "/");
  }

  /** The output record of `getTransactions`. */
  datatype BankTransaction = BankTransaction(
    bankCode: string,
    accountNum: string,
    transactionDate: BcaDate,
    transactionType: TxType,
    transactionAmount: Option<nat>,
    transactionName: string,
    externalId: string)

  /** `${amount}`: the decimal digits of a number, or "NaN", which has no digit. */
  function AmountText(a: Option<nat>): (s: string)
    ensures a.Some? ==> |s| > 0 && AllDigits(s)
    ensures a.None? ==> !HasDigit(s)
  {
    match a
    case None =>
      assert forall i :: 0 <= i < |"NaN"| ==> !IsDigit("NaN"[i]);
      "NaN"
    case Some(n) => NatToString(n)
  }

  /** The text of an amount reads back as that amount, NaN included. */
  lemma AmountTextReadsBack(a: Option<nat>)
    ensures ParseAmount(AmountText(a)) == a
  {
    if a.Some? {
      ParseAmountOfNatToString(a.value);
    }
  }

  /**
   * The string that is hashed: bank code, account number, date, type, amount and name,
   * in that order and without separators. `dateText` is the rendering of the `Date`.
   */
  function IdSource(bankCode: string, accountNum: string, dateText: string, t: TxType,
                    amount: Option<nat>, name: string): (s: string)
    ensures bankCode + accountNum + dateText <= s
    ensures |s| == |bankCode| + |accountNum| + |dateText| + 2 + |AmountText(amount)| + |name|
  {
    bankCode + accountNum + dateText + TypeCode(t) + AmountText(amount) + name
  }

  /**
   * A record's external id is the digest of its own six fields. `md5` is the digest,
   * `showDate` the string a `Date` becomes inside a template literal.
   */
  predicate KeyedBy(r: BankTransaction, md5: string -> string, showDate: BcaDate -> string)
  {
    r.externalId == md5(IdSource(r.bankCode, r.accountNum, showDate(r.transactionDate),
                                 r.transactionType, r.transactionAmount, r.transactionName))
  }

  /** The `transactions.map(...)` callback for one raw transaction. */
  function MakeRecord(t: RawTransaction, accNum: string, currentYear: int,
                      md5: string -> string, showDate: BcaDate -> string): (r: BankTransaction)
    ensures r.bankCode == BankCode && r.accountNum == accNum
    ensures r.transactionDate == FormatterDateBca(t.date, currentYear)
    ensures r.transactionType == t.txType && r.transactionAmount == t.amount
    ensures r.transactionName == t.description
    ensures KeyedBy(r, md5, showDate)
  {
    var date := FormatterDateBca(t.date, currentYear);
    var r := BankTransaction(BankCode, accNum, date, t.txType, t.amount, t.description, "");
    r.(externalId := md5(IdSource(r.bankCode, r.accountNum, showDate(r.transactionDate),
                                  r.transactionType, r.transactionAmount, r.transactionName)))
  }

  /** `transactions.map(...)`: one record per raw transaction, in the same order. */
  function BuildRecords(ts: seq<RawTransaction>, accNum: string, currentYear: int,
                        md5: string -> string, showDate: BcaDate -> string): (rs: seq<BankTransaction>)
    ensures |rs| == |ts|
  {
    if ts == [] then []
    else [MakeRecord(ts[0], accNum, currentYear, md5, showDate)] + BuildRecords(ts[1..], accNum, currentYear, md5, showDate)
  }

  /** The `i`-th record is built from the `i`-th raw transaction. */
  lemma {:induction false} BuildRecordsAt(ts: seq<RawTransaction>, accNum: string, currentYear: int,
                                          md5: string -> string, showDate: BcaDate -> string)
    ensures forall i :: 0 <= i < |ts| ==>
      BuildRecords(ts, accNum, currentYear, md5, showDate)[i] == MakeRecord(ts[i], accNum, currentYear, md5, showDate)
  {
    if ts != [] {
      BuildRecordsAt(ts[1..], accNum, currentYear, md5, showDate);
    }
  }

  /** Every record of one call has the bank code, the account number and a matching id. */
  lemma RecordsShareAccount(ts: seq<RawTransaction>, accNum: string, currentYear: int,
                            md5: string -> string, showDate: BcaDate -> string)
    ensures forall r :: r in BuildRecords(ts, accNum, currentYear, md5, showDate) ==>
      r.bankCode == BankCode && r.accountNum == accNum && KeyedBy(r, md5, showDate)
  {
    var rs := BuildRecords(ts, accNum, currentYear, md5, showDate);
    BuildRecordsAt(ts, accNum, currentYear, md5, showDate);
    forall r | r in rs
      ensures r.bankCode == BankCode && r.accountNum == accNum && KeyedBy(r, md5, showDate)
    {
      var i :| 0 <= i < |rs| && rs[i] == r;
    }
  }

  /** Building is done row by row: the records of two tables are the records of each. */
  lemma {:induction false} BuildRecordsAppend(a: seq<RawTransaction>, b: seq<RawTransaction>, accNum: string,
                                               currentYear: int, md5: string -> string, showDate: BcaDate -> string)
    ensures BuildRecords(a + b, accNum, currentYear, md5, showDate)
            == BuildRecords(a, accNum, currentYear, md5, showDate) + BuildRecords(b, accNum, currentYear, md5, showDate)
  {
    if a != [] {
      assert (a + b)[1..] == a[1..] + b;
      BuildRecordsAppend(a[1..], b, accNum, currentYear, md5, showDate);
    } else {
      assert a + b == b;
    }
  }

  /** Records that agree on the six fields have the same external id: the deduplication key. */
  lemma SameFieldsSameId(r1: BankTransaction, r2: BankTransaction, md5: string -> string, showDate: BcaDate -> string)
    requires KeyedBy(r1, md5, showDate) && KeyedBy(r2, md5, showDate)
    requires r1.(externalId := "") == r2.(externalId := "")
    ensures r1.externalId == r2.externalId
  {
    assert r1.bankCode == r2.bankCode && r1.accountNum == r2.accountNum;
    assert r1.transactionDate == r2.transactionDate && r1.transactionType == r2.transactionType;
    assert r1.transactionAmount == r2.transactionAmount && r1.transactionName == r2.transactionName;
  }

  /**
   * Without separators the hashed string does not determine the fields: amount 12 with
   * name "3 TRANSFER" and amount 123 with name " TRANSFER" hash the same string.
   */
  lemma IdSourceCollides(accNum: string, dateText: string)
    ensures IdSource(BankCode, accNum, dateText, DB, Some(12), "3 TRANSFER")
         == IdSource(BankCode, accNum, dateText, DB, Some(123), " TRANSFER")
  {
    assert AmountText(Some(12)) == "12" by { assert NatToString(1) == "1"; }
    assert AmountText(Some(123)) == "123" by { assert NatToString(12) == "12" by { assert NatToString(1) == "1"; } }
    assert "12" + "3 TRANSFER" == "123" + " TRANSFER";
  }
}
