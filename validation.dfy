/**
 * The add form's validation: trimming of the text inputs and the fixed chain
 * of checks that either rejects the input or yields the fields of a new entry.
 */
module Validation {
  import opened LedgerTypes

  /** Why the form was rejected; one case per check, in the order they run. */
  datatype ValidationError =
    | MissingName       // the description is empty after trimming
    | MissingAmount     // the amount field is empty after trimming
    | NotANumber        // the amount text does not parse as a number
    | NotPositive       // the parsed amount is zero or negative
    | MissingCategory   // no category was selected

  /** The fields validation hands to the add operation. */
  datatype Entry = Entry(name: string, amount: real, category: string)

  /**
   * The characters string trimming removes at either end: tab, vertical tab,
   * form feed, space, the byte order mark, the Unicode space separators and
   * the four line terminators.
   */
  predicate IsSpace(c: char)
  {
    || c == '\t' || c == '\U{B}' || c == '\U{C}' || c == ' ' || c == '\U{FEFF}'
    || c == '\n' || c == '\r' || c == '\U{2028}' || c == '\U{2029}'
    || c == '\U{A0}' || c == '\U{1680}' || ('\U{2000}' <= c <= '\U{200A}')
    || c == '\U{202F}' || c == '\U{205F}' || c == '\U{3000}'
  }

  /** `s` without its leading white space. */
  function TrimStart(s: string): (r: string)
    ensures |r| <= |s| && r == s[|s| - |r|..]
    ensures forall k :: 0 <= k < |s| - |r| ==> IsSpace(s[k])
    ensures r != [] ==> !IsSpace(r[0])
  {
    if s != [] && IsSpace(s[0]) then TrimStart(s[1..]) else s
  }

  /** `s` without its trailing white space. */
  function TrimEnd(s: string): (r: string)
    ensures |r| <= |s| && r == s[..|r|]
    ensures forall k :: |r| <= k < |s| ==> IsSpace(s[k])
    ensures r != [] ==> !IsSpace(r[|r| - 1])
  {
    if s != [] && IsSpace(s[|s| - 1]) then TrimEnd(s[..|s| - 1]) else s
  }

  /** String trimming: white space removed at both ends. */
  function Trim(s: string): string
  {
    TrimEnd(TrimStart(s))
  }

  /** Trimming leaves nothing exactly when the input is all white space. */
  lemma TrimEmptyIff(s: string)
    ensures Trim(s) == [] <==> forall k :: 0 <= k < |s| ==> IsSpace(s[k])
  {
  }

  /** A trimmed text neither starts nor ends with white space, and trimming it again changes nothing. */
  lemma TrimIdempotent(s: string)
    ensures var r := Trim(s); r == [] || (!IsSpace(r[0]) && !IsSpace(r[|r| - 1]))
    ensures Trim(Trim(s)) == Trim(s)
  {
    var t := TrimStart(s);
    var r := TrimEnd(t);
    if r != [] {
      assert r[0] == t[0];
    }
  }

  /**
   * The form check. `nameInput` and `amountInput` are the raw field texts,
   * both trimmed before they are checked; `parsed` is the number read from
   * the trimmed amount text (None when it reads as not-a-number);
   * `category` is the selected option, which is not trimmed.
   * The checks run in a fixed order and the first that fails is reported.
   */
  function Validate(nameInput: string, amountInput: string, parsed: Option<real>, category: string)
    : (r: Result<Entry, ValidationError>)
    ensures r.Ok? <==>
      Trim(nameInput) != "" && Trim(amountInput) != "" && parsed.Some? && parsed.value > 0.0 && category != ""
    ensures r.Ok? ==> r.value == Entry(Trim(nameInput), parsed.value, category)
    ensures r.Ok? ==> r.value.amount > 0.0 && r.value.name != "" && r.value.category != ""
    ensures r == Err(MissingName) <==> Trim(nameInput) == ""
    ensures r == Err(MissingAmount) <==> Trim(nameInput) != "" && Trim(amountInput) == ""
    ensures r == Err(NotANumber) <==> Trim(nameInput) != "" && Trim(amountInput) != "" && parsed.None?
    ensures r == Err(NotPositive) <==>
      Trim(nameInput) != "" && Trim(amountInput) != "" && parsed.Some? && parsed.value <= 0.0
    ensures r == Err(MissingCategory) <==>
      Trim(nameInput) != "" && Trim(amountInput) != "" && parsed.Some? && parsed.value > 0.0 && category == ""
  {
    var name := Trim(nameInput);
    var amountText := Trim(amountInput);
    if name == "" then Err(MissingName)
    else if amountText == "" then Err(MissingAmount)
    else if parsed.None? then Err(NotANumber)
    else if parsed.value <= 0.0 then Err(NotPositive)
    else if category == "" then Err(MissingCategory)
    else Ok(Entry(name, parsed.value, category))
  }

  /** A description made only of white space is rejected, whatever the other fields hold. */
  lemma BlankNameRejected(nameInput: string, amountInput: string, parsed: Option<real>, category: string)
    requires forall k :: 0 <= k < |nameInput| ==> IsSpace(nameInput[k])
    ensures Validate(nameInput, amountInput, parsed, category) == Err(MissingName)
  {
  }
}
