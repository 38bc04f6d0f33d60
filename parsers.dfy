/**
 * The raising token converters and the validating parsers, one per command
 * family. A parser object holds the command's argument tokens and its chat,
 * and follows an `is_valid` / `validated_data` / `error` protocol: the
 * parsed data may only be read after a successful `is_valid`.
 */
module Parsers {
  import opened Wrappers
  import opened Text
  import opened Numbers
  import opened Constants
  import opened Models
  import Utils

  /** `parse_amount`: the amount in cents, or the error "Invalid amount". */
  function ParseAmount(t: string): (r: Result<int, string>)
    ensures r.Ok? <==> ParseCents(t).Some? && ParseCents(t).value >= MIN_AMOUNT
    ensures r.Ok? ==> r.value == ParseCents(t).value
    ensures r.Err? ==> r.error == "Invalid amount"
  {
    match ParseCents(t)
    case None => Err("Invalid amount")
    case Some(v) => if v < MIN_AMOUNT then Err("Invalid amount") else Ok(v)
  }

  /** `parse_id`: a non-negative integer (0 included), or the error "Invalid ID". */
  function ParseId(t: string): (r: Result<nat, string>)
    ensures r.Ok? <==> ParseInt(t).Some? && ParseInt(t).value >= 0
    ensures r.Ok? ==> r.value == ParseInt(t).value
    ensures r.Err? ==> r.error == "Invalid ID"
  {
    match ParseInt(t)
    case None => Err("Invalid ID")
    case Some(n) => if n < 0 then Err("Invalid ID") else Ok(n)
  }

  /** `parse_note`: the tokens joined by single spaces. */
  function ParseNote(tokens: seq<string>): string {
    Join(" ", tokens)
  }

  /** The raising converters accept exactly what the `None`-returning ones accept, with the same value. */
  lemma ConvertersAgree(t: string)
    ensures ParseAmount(t).Ok? <==> Utils.ParseAmount(t).Some?
    ensures ParseAmount(t).Ok? ==> Utils.ParseAmount(t).value == ParseAmount(t).value
    ensures ParseId(t).Ok? <==> Utils.ParseId(t).Some?
    ensures ParseId(t).Ok? ==> Utils.ParseId(t).value == ParseId(t).value
  {
  }

  /** A note built from space-free tokens splits back into those tokens. */
  lemma NoteKeepsTokens(tokens: seq<string>)
    requires |tokens| >= 1
    requires forall i :: 0 <= i < |tokens| ==> ' ' !in tokens[i]
    ensures Split(ParseNote(tokens), ' ') == tokens
  {
    SplitJoin(tokens, ' ');
  }

  /** What a successful `parse_data` returns, per parser. */
  datatype ParsedData =
    | AmountAndNote(amount: int, note: string)
    | OperationId(operationId: nat)
    | Changes(operationId: nat, newAmount: Option<int>, newNote: Option<string>, newType: Option<string>)
    | Operations(operations: seq<Operation>)

  datatype ParserKind = BaseParser | IncomeAndExpenseParser | DeleteParser | UpdateParser | ReportParser

  /** `IncomeAndExpenseParser.parse_data`. With no tokens, reading `args[0]` raises IndexError. */
  function ParseIncomeAndExpense(args: seq<string>): (r: Result<ParsedData, string>)
    ensures |args| == 0 ==> r == Err("list index out of range")
    ensures |args| > 0 ==> (r.Ok? <==> ParseAmount(args[0]).Ok?)
    ensures |args| > 0 && r.Err? ==> r.error == "Invalid amount"
    ensures r.Ok? ==> r.value == AmountAndNote(ParseAmount(args[0]).value, ParseNote(args[1..]))
  {
    if |args| == 0 then Err("list index out of range")
    else
      match ParseAmount(args[0])
      case Err(e) => Err(e)
      case Ok(amount) =>
        var note := if |args| > 1 then ParseNote(args[1..]) else "";
        Ok(AmountAndNote(amount, note))
  }

  /** `DeleteParser.parse_data`: only the first token is read. */
  function ParseDelete(args: seq<string>): (r: Result<ParsedData, string>)
    ensures |args| == 0 ==> r == Err("One argument is required")
    ensures |args| > 0 ==> (r.Ok? <==> ParseId(args[0]).Ok?)
    ensures |args| > 0 && r.Err? ==> r.error == "Invalid ID"
    ensures r.Ok? ==> r.value == OperationId(ParseId(args[0]).value)
  {
    if |args| == 0 then Err("One argument is required")
    else
      match ParseId(args[0])
      case Err(e) => Err(e)
      case Ok(id) => Ok(OperationId(id))
  }

  /** Extra tokens after the ID make no difference to a delete, and ID 0 is accepted. */
  lemma DeleteIgnoresExtraTokens(args: seq<string>)
    requires |args| >= 1
    ensures ParseDelete(args) == ParseDelete([args[0]])
    ensures ParseDelete(["0"]) == Ok(OperationId(0))
  {
    IntRoundTrip(0);
  }

  /**
   * `UpdateParser.parse_data`. A signed second token is an amount (the type is
   * income when the sign is `+`) with an optional note; otherwise every token
   * after the ID is the note and amount and type stay unset.
   */
  function ParseUpdate(args: seq<string>): (r: Result<ParsedData, string>)
    ensures |args| < 2 ==> r == Err("Two arguments are required")
    ensures |args| >= 2 ==> (r.Ok? <==> ParseId(args[0]).Ok? && (IsSigned(args[1]) ==> ParseAmount(args[1]).Ok?))
    ensures |args| >= 2 && ParseId(args[0]).Err? ==> r == Err("Invalid ID")
    ensures |args| >= 2 && ParseId(args[0]).Ok? && r.Err? ==> r == Err("Invalid amount")
    ensures r.Ok? ==> r.value.Changes? && r.value.operationId == ParseId(args[0]).value
    ensures r.Ok? && IsSigned(args[1]) ==>
      && r.value.newAmount == Some(ParseAmount(args[1]).value)
      && r.value.newType == Some(INCOME)
      && r.value.newNote == (if |args| >= 3 then Some(ParseNote(args[2..])) else None)
    ensures r.Ok? && !IsSigned(args[1]) ==>
      r.value.newAmount == None && r.value.newType == None && r.value.newNote == Some(ParseNote(args[1..]))
  {
    if |args| < 2 then Err("Two arguments are required")
    else
      match ParseId(args[0])
      case Err(e) => Err(e)
      case Ok(id) =>
        var plus := StartsWith(args[1], PLUS_SIGN);
        var minus := StartsWith(args[1], MINUS_SIGN);
        if plus || minus then
          match ParseAmount(args[1])
          case Err(e) => Err(e)
          case Ok(amount) =>
            var kind := if plus then INCOME else EXPENSE;
            var note := if |args| >= 3 then Some(ParseNote(args[2..])) else None;
            Ok(Changes(id, Some(amount), note, Some(kind)))
        else
          Ok(Changes(id, None, Some(ParseNote(args[1..])), None))
  }

  /** `ReportParser.parse_data`: exactly one interval token, and a non-empty result. */
  function ParseReport(args: seq<string>, chat: int, rows: seq<Operation>,
                       resolve: string -> Result<Span, string>): (r: Result<ParsedData, string>)
    ensures |args| != 1 ==> r == Err("One argument is required")
    ensures |args| == 1 && resolve(args[0]).Err? ==> r == Err(resolve(args[0]).error)
    ensures r.Ok? ==> r.value.Operations? && |r.value.operations| > 0
    ensures r.Ok? ==> forall x :: x in r.value.operations <==> x in rows && x.chat == chat && InSpan(x, resolve(args[0]).value)
    ensures |args| == 1 && resolve(args[0]).Ok? && r.Err? ==>
      r == Err("No transactions") && forall x :: x in rows && x.chat == chat ==> !InSpan(x, resolve(args[0]).value)
  {
    if |args| != 1 then Err("One argument is required")
    else
      match TransactionsByInterval(rows, chat, args[0], resolve)
      case Err(e) => Err(e)
      case Ok(operations) =>
        if operations == [] then Err("No transactions") else Ok(Operations(operations))
  }

  /** `parse_data` of each parser; the base class raises NotImplementedError, whose text is empty. */
  function ParseData(kind: ParserKind, args: seq<string>, chat: int, rows: seq<Operation>,
                     resolve: string -> Result<Span, string>): Result<ParsedData, string>
  {
    match kind
    case BaseParser => Err("")
    case IncomeAndExpenseParser => ParseIncomeAndExpense(args)
    case DeleteParser => ParseDelete(args)
    case UpdateParser => ParseUpdate(args)
    case ReportParser => ParseReport(args, chat, rows, resolve)
  }

  /** A parser for one command invocation: its tokens, its chat and its validation state. */
  class Parser {
    const kind: ParserKind
    const args: seq<string>
    const chat: int
    var valid: bool
    var error: Option<string>
    var data: Option<ParsedData>

    ghost predicate Valid()
      reads this
    {
      valid ==> data.Some?
    }

    constructor (kind: ParserKind, args: seq<string>, chat: int)
      ensures Valid()
      ensures this.kind == kind && this.args == args && this.chat == chat
      ensures !valid && error == None && data == None
    {
      this.kind, this.args, this.chat := kind, args, chat;
      valid, error, data := false, None, None;
    }

    /** `validated_data`: refused until some `is_valid` call succeeded. */
    function ValidatedData(): (r: Result<ParsedData, string>)
      reads this
      requires Valid()
      ensures r.Err? <==> !valid
      ensures r.Err? ==> r.error == "Call `.is_valid()` first"
      ensures r.Ok? ==> data == Some(r.value)
    {
      if !valid then Err("Call `.is_valid()` first") else Ok(data.value)
    }

    /** `is_args`: whether any argument token was given. */
    function IsArgs(): (b: bool)
      reads this
      ensures b <==> |args| > 0
    {
      |args| != 0
    }

    /**
     * `is_valid`: run `parse_data` against the current ledger. Success stores
     * the data and marks the parser valid; failure records the message and
     * leaves both the validity and the stored data as they were.
     */
    method IsValid(rows: seq<Operation>, resolve: string -> Result<Span, string>) returns (ok: bool)
      requires Valid()
      modifies this
      ensures Valid()
      ensures var p := ParseData(kind, args, chat, rows, resolve);
        && ok == p.Ok?
        && valid == (old(valid) || ok)
        && (ok ==> data == Some(p.value) && error == old(error))
        && (!ok ==> data == old(data) && error == Some(p.error))
    {
      var p := ParseData(kind, args, chat, rows, resolve);
      if p.Err? {
        error := Some(p.error);
        return false;
      }
      data := Some(p.value);
      valid := true;
      ok := true;
    }
  }

  /** A fresh parser refuses `validated_data`; after a successful `is_valid` it returns what `parse_data` gave. */
  method ValidationProtocol(kind: ParserKind, args: seq<string>, chat: int, rows: seq<Operation>,
                            resolve: string -> Result<Span, string>) returns (before: Result<ParsedData, string>, after: Result<ParsedData, string>)
    ensures before == Err("Call `.is_valid()` first")
    ensures ParseData(kind, args, chat, rows, resolve).Ok? ==> after == ParseData(kind, args, chat, rows, resolve)
    ensures ParseData(kind, args, chat, rows, resolve).Err? ==> after == before
  {
    var p := new Parser(kind, args, chat);
    before := p.ValidatedData();
    var ok := p.IsValid(rows, resolve);
    after := p.ValidatedData();
  }
}
