/**
 * The theme's `spacing` function (src/mui.tsx:126-145): the design system's
 * spacing tokens whose key ends in `w` form a scale, and `spacing(n)` looks
 * up the n-th step of that scale.
 */
module MuiSpacing {

  import opened JsStrings

  /** A spacing token: its key (`"1v"`, `"2w"`, ...) and its CSS length (`"1rem"`, ...). */
  datatype SpacingToken = SpacingToken(key: string, value: string)

  /** Argument and result of the spacing function: `string | number`. */
  datatype Length = Text(s: string) | Number(x: real)

  /** A key that belongs to the scale: `key.endsWith("w")`. */
  predicate IsScaleKey(key: string)
    ensures IsScaleKey(key) <==> |key| > 0 && key[|key| - 1] == 'w'
  {
    EndsWith(key, "w")
  }

  /** The values of the scale keys, in the declaration order of the token table. */
  function ScaleValues(tokens: seq<SpacingToken>): (values: seq<string>)
    ensures |values| <= |tokens|
  {
    if tokens == [] then []
    else
      var last := tokens[|tokens| - 1];
      ScaleValues(tokens[..|tokens| - 1]) + (if IsScaleKey(last.key) then [last.value] else [])
  }

  /**
   * The `forEach` loop that pushes the value of every key ending in `w`
   * into `values`.
   */
  method BuildScale(tokens: seq<SpacingToken>) returns (values: seq<string>)
    ensures values == ScaleValues(tokens)
  {
    values := [];
    var i := 0;
    while i < |tokens|
      invariant 0 <= i <= |tokens|
      invariant values == ScaleValues(tokens[..i])
    {
      assert tokens[..i + 1][..i] == tokens[..i];
      if IsScaleKey(tokens[i].key) {
        values := values + [tokens[i].value];
      }
      i := i + 1;
    }
    assert tokens[..i] == tokens;
  }

  /**
   * `values[abs - 1]` is defined: `abs - 1` is an integral index into the scale.
   * Any other number (a fraction, zero or below, past the end) indexes to `undefined`.
   */
  predicate IsScaleStep(x: real, n: nat) {
    x.Floor as real == x && 1 <= x.Floor <= n
  }

  /** The closure returned at src/mui.tsx:136-144. */
  function Spacing(values: seq<string>, abs: Length): (r: Length)
    ensures abs.Text? ==> r == abs
    ensures abs.Number? && abs.x == 0.0 ==> r == Number(0.0)
    ensures abs.Number? && IsScaleStep(abs.x, |values|) ==> r == Text(values[abs.x.Floor - 1])
    ensures abs.Number? && !IsScaleStep(abs.x, |values|) ==> r == abs
  {
    match abs
    case Text(_) => abs
    case Number(x) =>
      if x == 0.0 then Number(0.0)
      else if IsScaleStep(x, |values|) then Text(values[x.Floor - 1])
      else abs
  }

  /** The scale holds exactly the values of the `w` keys: each value comes from one, and each one's value is present. */
  lemma {:induction false} ScaleValuesMembers(tokens: seq<SpacingToken>, v: string)
    ensures v in ScaleValues(tokens) <==> exists j :: 0 <= j < |tokens| && IsScaleKey(tokens[j].key) && tokens[j].value == v
  {
    if tokens != [] {
      var init := tokens[..|tokens| - 1];
      ScaleValuesMembers(init, v);
      if exists j :: 0 <= j < |tokens| && IsScaleKey(tokens[j].key) && tokens[j].value == v {
        var j :| 0 <= j < |tokens| && IsScaleKey(tokens[j].key) && tokens[j].value == v;
        if j < |init| {
          assert init[j] == tokens[j];
        }
      }
      if exists j :: 0 <= j < |init| && IsScaleKey(init[j].key) && init[j].value == v {
        var j :| 0 <= j < |init| && IsScaleKey(init[j].key) && init[j].value == v;
        assert tokens[j] == init[j];
      }
    }
  }

  /**
   * Declaration order is kept: the scale of a prefix of the token table is a
   * prefix of the whole scale, so adding tokens never renumbers earlier steps.
   */
  lemma {:induction false} ScaleValuesPrefix(tokens: seq<SpacingToken>, k: nat)
    requires k <= |tokens|
    ensures ScaleValues(tokens[..k]) <= ScaleValues(tokens)
  {
    if k < |tokens| {
      var init := tokens[..|tokens| - 1];
      assert init[..k] == tokens[..k];
      ScaleValuesPrefix(init, k);
    } else {
      assert tokens[..k] == tokens;
    }
  }

  /**
   * The scale steps are the `w` keys counted in order: after the tokens
   * `tokens[..j]`, the `w`-keyed token `tokens[j]` is the next step, so
   * `spacing(n)` for that step yields its value.
   */
  lemma ScaleStepOfToken(tokens: seq<SpacingToken>, j: nat)
    requires j < |tokens| && IsScaleKey(tokens[j].key)
    ensures
      var n := |ScaleValues(tokens[..j])| + 1;
      Spacing(ScaleValues(tokens), Number(n as real)) == Text(tokens[j].value)
  {
    assert tokens[..j + 1][..j] == tokens[..j];
    ScaleValuesPrefix(tokens, j + 1);
  }

  /** A result is a token value or the argument itself, never an invented length. */
  lemma SpacingRange(values: seq<string>, abs: Length)
    ensures var r := Spacing(values, abs); r == abs || (r.Text? && r.s in values)
  {
  }

  /** Applying the spacing function to its own result changes nothing. */
  lemma SpacingIdempotent(values: seq<string>, abs: Length)
    ensures Spacing(values, Spacing(values, abs)) == Spacing(values, abs)
  {
  }
}
