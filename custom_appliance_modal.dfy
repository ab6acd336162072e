/**
 * The form for adding a custom appliance: three text fields and an error line.
 * Submitting checks name, wattage and quantity in that order; the first failed
 * check sets the error and nothing is added.
 */
module CustomApplianceModal {
  import opened Wrappers
  import opened BatteryCalculator

  /**
   * The characters String.prototype.trim removes: ECMAScript white space (tab,
   * vertical tab, form feed, space, no-break space, the Unicode space separators
   * and the byte-order mark) and line terminators.
   */
  predicate IsWhitespace(c: char) {
    || '\t' <= c <= '\r'
    || c == ' ' || c == '\U{00A0}' || c == '\U{1680}'
    || '\U{2000}' <= c <= '\U{200A}'
    || c == '\U{2028}' || c == '\U{2029}' || c == '\U{202F}' || c == '\U{205F}'
    || c == '\U{3000}' || c == '\U{FEFF}'
  }

  /** Drops leading white space. */
  function TrimStart(s: string): (r: string)
    ensures |r| <= |s|
  {
    if s != [] && IsWhitespace(s[0]) then TrimStart(s[1..]) else s
  }

  /** Drops trailing white space. */
  function TrimEnd(s: string): (r: string)
    ensures |r| <= |s|
  {
    if s != [] && IsWhitespace(s[|s| - 1]) then TrimEnd(s[..|s| - 1]) else s
  }

  /** TrimStart keeps a suffix, drops only white space, and stops at the first other character. */
  lemma {:induction false} TrimStartDrops(s: string)
    ensures var r := TrimStart(s);
      && r == s[|s| - |r|..]
      && (forall k :: 0 <= k < |s| - |r| ==> IsWhitespace(s[k]))
      && (r != [] ==> !IsWhitespace(r[0]))
  {
    if s != [] && IsWhitespace(s[0]) {
      var r := TrimStart(s[1..]);
      TrimStartDrops(s[1..]);
      assert s[1..][|s| - 1 - |r|..] == s[|s| - |r|..];
      assert forall k :: 1 <= k < |s| - |r| ==> s[k] == s[1..][k - 1];
    }
  }

  /** TrimEnd keeps a prefix, drops only white space, and stops at the last other character. */
  lemma {:induction false} TrimEndDrops(s: string)
    ensures var r := TrimEnd(s);
      && r == s[..|r|]
      && (forall k :: |r| <= k < |s| ==> IsWhitespace(s[k]))
      && (r != [] ==> !IsWhitespace(r[|r| - 1]))
  {
    if s != [] && IsWhitespace(s[|s| - 1]) {
      var r := TrimEnd(s[..|s| - 1]);
      TrimEndDrops(s[..|s| - 1]);
      assert s[..|s| - 1][..|r|] == s[..|r|];
      assert forall k :: |r| <= k < |s| - 1 ==> s[k] == s[..|s| - 1][k];
    }
  }

  /** String.prototype.trim. */
  function Trim(s: string): string {
    TrimEnd(TrimStart(s))
  }

  /** A name trims to nothing exactly when every character of it is white space. */
  lemma TrimEmpty(s: string)
    ensures Trim(s) == [] <==> forall k :: 0 <= k < |s| ==> IsWhitespace(s[k])
  {
    var t := TrimStart(s);
    TrimStartDrops(s);
    TrimEndDrops(t);
    if t != [] {
      assert !IsWhitespace(t[0]) && t[0] == s[|s| - |t|];
      assert TrimEnd(t) != [];
    }
  }

  /**
   * Dropping white space at the front (leaving `u`) and then at the back (leaving
   * `t`) leaves a middle slice of `s` with white space on either side of it.
   */
  lemma EdgesOfSlices(s: string, u: string, t: string)
    requires |u| <= |s| && u == s[|s| - |u|..] && forall k :: 0 <= k < |s| - |u| ==> IsWhitespace(s[k])
    requires |t| <= |u| && t == u[..|t|] && forall k :: |t| <= k < |u| ==> IsWhitespace(u[k])
    ensures var i := |s| - |u|;
      && t == s[i..i + |t|]
      && forall k :: i + |t| <= k < |s| ==> IsWhitespace(s[k])
  {
    var i := |s| - |u|;
    assert s[i..][..|t|] == s[i..i + |t|];
    forall k | i + |t| <= k < |s|
      ensures IsWhitespace(s[k])
    {
      assert s[k] == u[k - i];
    }
  }

  /**
   * Trimming splits the input into leading white space, the trimmed text, and
   * trailing white space; the trimmed text neither starts nor ends with white space.
   */
  lemma TrimmedEdges(s: string)
    ensures var t, i := Trim(s), |s| - |TrimStart(s)|;
      && i + |t| <= |s| && t == s[i..i + |t|]
      && (forall k :: 0 <= k < i ==> IsWhitespace(s[k]))
      && (forall k :: i + |t| <= k < |s| ==> IsWhitespace(s[k]))
      && (t != [] ==> !IsWhitespace(t[0]) && !IsWhitespace(t[|t| - 1]))
  {
    var u := TrimStart(s);
    var t := TrimEnd(u);
    TrimStartDrops(s);
    TrimEndDrops(u);
    EdgesOfSlices(s, u, t);
    if t != [] {
      FirstOfPrefix(u, t);
    }
  }

  /** A non-empty prefix starts with the same character as the sequence it is cut from. */
  lemma FirstOfPrefix(u: string, t: string)
    requires 0 < |t| <= |u| && t == u[..|t|]
    ensures t[0] == u[0]
  {
  }

  const NameMessage := "Please enter appliance name"
  const WattageMessage := "Please enter a valid wattage"
  const QuantityMessage := "Please enter a valid quantity"

  /**
   * A numeric field passes when its text is not empty and parses to a positive
   * integer; `parsed` is what parseInt gives for the text (None for NaN).
   */
  predicate ValidCount(text: string, parsed: Option<int>) {
    text != "" && parsed.Some? && parsed.value > 0
  }

  /** The outcome of the check chain on the current fields. */
  function Validate(name: string, wattage: string, wattageNum: Option<int>, quantity: string, quantityNum: Option<int>)
    : (r: Result<CustomAppliance, string>)
    ensures r.Ok? <==> Trim(name) != [] && ValidCount(wattage, wattageNum) && ValidCount(quantity, quantityNum)
    ensures r.Ok? ==>
              && r.value.name == Trim(name) && r.value.name != []
              && r.value.wattage > 0 && r.value.wattage == wattageNum.value
              && r.value.quantity > 0 && r.value.quantity == quantityNum.value
    ensures Trim(name) == [] ==> r == Err(NameMessage)
    ensures Trim(name) != [] && !ValidCount(wattage, wattageNum) ==> r == Err(WattageMessage)
    ensures r == Err(QuantityMessage) <==>
              Trim(name) != [] && ValidCount(wattage, wattageNum) && !ValidCount(quantity, quantityNum)
  {
    if Trim(name) == [] then Err(NameMessage)
    else if !ValidCount(wattage, wattageNum) then Err(WattageMessage)
    else if !ValidCount(quantity, quantityNum) then Err(QuantityMessage)
    else Ok(CustomAppliance(Trim(name), wattageNum.value, quantityNum.value))
  }

  /** A name of only white space is refused with the name message, whatever the numbers. */
  lemma BlankNameRefused(name: string, wattage: string, wattageNum: Option<int>, quantity: string, quantityNum: Option<int>)
    requires forall k :: 0 <= k < |name| ==> IsWhitespace(name[k])
    ensures Validate(name, wattage, wattageNum, quantity, quantityNum) == Err(NameMessage)
  {
    TrimEmpty(name);
  }

  class CustomApplianceForm {
    var name: string
    var wattage: string
    var quantity: string
    var error: string

    /** The initial fields: empty name and wattage, quantity "1", no error. */
    constructor ()
      ensures name == "" && wattage == "" && quantity == "1" && error == ""
    {
      name, wattage, quantity, error := "", "", "1", "";
    }

    /** The three inputs' change handlers: the fields take the typed text. */
    method Edit(newName: string, newWattage: string, newQuantity: string)
      modifies this
      ensures name == newName && wattage == newWattage && quantity == newQuantity && error == old(error)
    {
      name, wattage, quantity := newName, newWattage, newQuantity;
    }

    /**
     * handleSubmit: `added` is what onAdd receives and `closed` whether onClose is
     * called. On success the fields reset and the error is empty; on failure the
     * error holds the first failed check's message and the fields are kept.
     */
    method HandleSubmit(wattageNum: Option<int>, quantityNum: Option<int>) returns (added: Option<CustomAppliance>, closed: bool)
      modifies this
      ensures var v := Validate(old(name), old(wattage), wattageNum, old(quantity), quantityNum);
        && added == (if v.Ok? then Some(v.value) else None)
        && closed == v.Ok?
        && error == (if v.Ok? then "" else v.error)
        && (v.Ok? ==> name == "" && wattage == "" && quantity == "1")
        && (v.Err? ==> name == old(name) && wattage == old(wattage) && quantity == old(quantity))
    {
      error := "";
      added, closed := None, false;

      if Trim(name) == [] {
        error := NameMessage;
        return;
      }

      if wattage == "" || wattageNum.None? || wattageNum.value <= 0 {
        error := WattageMessage;
        return;
      }

      if quantity == "" || quantityNum.None? || quantityNum.value <= 0 {
        error := QuantityMessage;
        return;
      }

      added := Some(CustomAppliance(Trim(name), wattageNum.value, quantityNum.value));

      name, wattage, quantity := "", "", "1";
      closed := true;
    }

    /** handleClose: resets every field and clears the error. */
    method HandleClose()
      modifies this
      ensures name == "" && wattage == "" && quantity == "1" && error == ""
    {
      name, wattage, quantity, error := "", "", "1", "";
    }
  }
}
