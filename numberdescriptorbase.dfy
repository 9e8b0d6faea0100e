/** The numeric-formatting settings descriptor: format precedence, the default
    format derived from the bound data type, and the fields it hides from the
    formatting panel. */
module NumberDescriptors {
  import opened JsValues

  /** An argument that may be left `undefined` by the caller. */
  datatype Option<T> = None | Some(value: T)

  /** The data representation type the descriptor is bound to; `OtherType`
      stands for every member of the enumeration other than the two named. */
  datatype DataType = NumberType | DateType | OtherType

  /** The default format derived for dates. */
  const DateFormat: string := "%M/%d/yyyy"

  /** The default format derived for numbers. */
  const NumberFormat: string := "#,0.00"

  /** An absent type argument takes the parameter's default, `NumberType`. */
  function EffectiveType(t: Option<DataType>): DataType {
    match t
    case None => NumberType
    case Some(ty) => ty
  }

  /** The two types for which a default format exists; for them the format field stays visible. */
  predicate HasDefaultPattern(t: DataType) {
    t == NumberType || t == DateType
  }

  function DefaultPattern(t: DataType): string
    requires HasDefaultPattern(t)
  {
    if t == DateType then DateFormat else NumberFormat
  }

  /** The part of the descriptor that its operations change: the three format
      slots (`formatValue` is the value of the `format` text input) and whether
      each hideable field has been hidden from the formatting panel. */
  datatype State = State(
    defaultFormat: JsStr,
    columnFormat: JsStr,
    formatValue: JsStr,
    displayUnitsHidden: bool,
    precisionHidden: bool,
    formatHidden: bool)

  /** `setColumnFormat` as a transition. */
  function ColumnFormatSet(s: State, format: JsStr): (r: State)
    // a falsy argument is not a clear: it leaves everything as it was
    ensures !Truthy(format) ==> r == s
    ensures Truthy(format) ==> r.columnFormat == format
    // only the column format can change
    ensures r == s.(columnFormat := r.columnFormat)
  {
    if !Truthy(format) then s else s.(columnFormat := format)
  }

  /** `applyDefaultFormatByType` as a transition. */
  function DefaultFormatApplied(s: State, t: DataType): (r: State)
    // write-once: a truthy default is never replaced
    ensures Truthy(s.defaultFormat) ==> r == s
    // a falsy default is replaced by the type's pattern, or by undefined
    ensures !Truthy(s.defaultFormat) ==>
      r.defaultFormat == (if HasDefaultPattern(t) then Str(DefaultPattern(t)) else Undef)
    // the format value is seeded only for dates, and only when it is null or undefined
    ensures r.formatValue != s.formatValue <==>
      !Truthy(s.defaultFormat) && t == DateType && IsNullish(s.formatValue)
    ensures r.formatValue != s.formatValue ==> r.formatValue == Str(DateFormat)
    ensures r == s.(defaultFormat := r.defaultFormat, formatValue := r.formatValue)
  {
    if Truthy(s.defaultFormat) then s
    else
      match t
      case DateType =>
        var s1 := s.(defaultFormat := Str(DateFormat));
        if IsNullish(s1.formatValue) then s1.(formatValue := s1.defaultFormat) else s1
      case NumberType => s.(defaultFormat := Str(NumberFormat))
      case OtherType => s.(defaultFormat := Undef)
  }

  /** The two hiding checks of `hidePropertiesByType` as a transition. */
  function PropertiesHidden(s: State, shouldNumericPropertiesBeHiddenByType: bool, t: DataType): (r: State)
    ensures r.displayUnitsHidden <==> s.displayUnitsHidden || (shouldNumericPropertiesBeHiddenByType && t != NumberType)
    ensures r.precisionHidden <==> s.precisionHidden || (shouldNumericPropertiesBeHiddenByType && t != NumberType)
    ensures r.formatHidden <==> s.formatHidden || !HasDefaultPattern(t)
    ensures r.defaultFormat == s.defaultFormat && r.columnFormat == s.columnFormat
    ensures r.formatValue == s.formatValue
  {
    var s1 := if shouldNumericPropertiesBeHiddenByType && t != NumberType
      then s.(displayUnitsHidden := true, precisionHidden := true)
      else s;
    if !(t == NumberType || t == DateType) then s1.(formatHidden := true) else s1
  }

  /** What `parse` does to this class's fields: derive the default format, then hide by type. */
  function Parsed(s: State, shouldNumericPropertiesBeHiddenByType: bool, t: Option<DataType>): (r: State)
    ensures r.columnFormat == s.columnFormat
    // hiding only ever adds hidden fields
    ensures s.displayUnitsHidden ==> r.displayUnitsHidden
    ensures s.precisionHidden ==> r.precisionHidden
    ensures s.formatHidden ==> r.formatHidden
    // with no type given nothing new is hidden
    ensures t.None? ==>
      r.displayUnitsHidden == s.displayUnitsHidden && r.precisionHidden == s.precisionHidden
      && r.formatHidden == s.formatHidden
    // a date hides the numeric fields under the policy, but never the format field
    ensures EffectiveType(t) == DateType ==>
      r.formatHidden == s.formatHidden
      && r.displayUnitsHidden == (s.displayUnitsHidden || shouldNumericPropertiesBeHiddenByType)
      && r.precisionHidden == (s.precisionHidden || shouldNumericPropertiesBeHiddenByType)
  {
    var ty := EffectiveType(t);
    PropertiesHidden(DefaultFormatApplied(s, ty), shouldNumericPropertiesBeHiddenByType, ty)
  }

  /** Parsing twice with the same type leaves the state parsing once leaves. */
  lemma ParsedIdempotent(s: State, shouldNumericPropertiesBeHiddenByType: bool, t: Option<DataType>)
    ensures Parsed(Parsed(s, shouldNumericPropertiesBeHiddenByType, t), shouldNumericPropertiesBeHiddenByType, t) == Parsed(s, shouldNumericPropertiesBeHiddenByType, t)
  {
  }

  /** The state after a sequence of `parse` calls, the first one first. */
  function ParsedAll(s: State, shouldNumericPropertiesBeHiddenByType: bool, types: seq<Option<DataType>>): State
    decreases |types|
  {
    if types == [] then s
    else ParsedAll(Parsed(s, shouldNumericPropertiesBeHiddenByType, types[0]), shouldNumericPropertiesBeHiddenByType, types[1..])
  }

  /** Any number of `parse` calls with one type has the effect of a single call. */
  lemma {:induction false} ParsedAllSameType(s: State, shouldNumericPropertiesBeHiddenByType: bool, t: Option<DataType>,
                                             types: seq<Option<DataType>>)
    requires types != []
    requires forall i :: 0 <= i < |types| ==> types[i] == t
    ensures ParsedAll(s, shouldNumericPropertiesBeHiddenByType, types) == Parsed(s, shouldNumericPropertiesBeHiddenByType, t)
    decreases |types|
  {
    var s1 := Parsed(s, shouldNumericPropertiesBeHiddenByType, t);
    if |types| > 1 {
      ParsedAllSameType(s1, shouldNumericPropertiesBeHiddenByType, t, types[1..]);
      ParsedIdempotent(s, shouldNumericPropertiesBeHiddenByType, t);
    }
  }

  /** Once the default format is truthy, no later `parse` changes the format slots. */
  lemma {:induction false} ParsedAllWriteOnce(s: State, shouldNumericPropertiesBeHiddenByType: bool, types: seq<Option<DataType>>)
    requires Truthy(s.defaultFormat)
    ensures ParsedAll(s, shouldNumericPropertiesBeHiddenByType, types).defaultFormat == s.defaultFormat
    ensures ParsedAll(s, shouldNumericPropertiesBeHiddenByType, types).formatValue == s.formatValue
    ensures ParsedAll(s, shouldNumericPropertiesBeHiddenByType, types).columnFormat == s.columnFormat
    decreases |types|
  {
    if types != [] {
      ParsedAllWriteOnce(Parsed(s, shouldNumericPropertiesBeHiddenByType, types[0]), shouldNumericPropertiesBeHiddenByType, types[1..]);
    }
  }

  /** `i` is the first call in `types` whose type has a default pattern. */
  predicate FirstDerivingAt(types: seq<Option<DataType>>, i: int) {
    0 <= i < |types| && HasDefaultPattern(EffectiveType(types[i]))
    && forall j :: 0 <= j < i ==> !HasDefaultPattern(EffectiveType(types[j]))
  }

  /** Starting from a falsy default, the default format is that of the first
      number or date call, however many other-typed calls came before it (the
      `undefined` they write is falsy and does not block); with no such call it
      is `undefined`. The format value is seeded only when that first call is a
      date and the value was null or undefined. */
  lemma {:induction false} ParsedAllFirstPatternWins(s: State, shouldNumericPropertiesBeHiddenByType: bool,
                                                     types: seq<Option<DataType>>)
    requires !Truthy(s.defaultFormat)
    ensures ParsedAll(s, shouldNumericPropertiesBeHiddenByType, types).columnFormat == s.columnFormat
    ensures forall i {:trigger FirstDerivingAt(types, i)} :: FirstDerivingAt(types, i) ==>
      var t := EffectiveType(types[i]);
      var r := ParsedAll(s, shouldNumericPropertiesBeHiddenByType, types);
      r.defaultFormat == Str(DefaultPattern(t))
      && r.formatValue == (if t == DateType && IsNullish(s.formatValue) then Str(DateFormat) else s.formatValue)
    ensures (forall i :: 0 <= i < |types| ==> !HasDefaultPattern(EffectiveType(types[i]))) ==>
      var r := ParsedAll(s, shouldNumericPropertiesBeHiddenByType, types);
      r.formatValue == s.formatValue
      && r.defaultFormat == (if types == [] then s.defaultFormat else Undef)
    decreases |types|
  {
    if types != [] {
      var s1 := Parsed(s, shouldNumericPropertiesBeHiddenByType, types[0]);
      var rest := types[1..];
      assert ParsedAll(s, shouldNumericPropertiesBeHiddenByType, types) == ParsedAll(s1, shouldNumericPropertiesBeHiddenByType, rest);
      if HasDefaultPattern(EffectiveType(types[0])) {
        ParsedAllWriteOnce(s1, shouldNumericPropertiesBeHiddenByType, rest);
        forall i | FirstDerivingAt(types, i)
          ensures i == 0
        {
        }
      } else {
        ParsedAllFirstPatternWins(s1, shouldNumericPropertiesBeHiddenByType, rest);
        forall i | FirstDerivingAt(types, i)
          ensures FirstDerivingAt(rest, i - 1)
        {
          assert i != 0;
          forall j | 0 <= j < i - 1
            ensures !HasDefaultPattern(EffectiveType(rest[j]))
          {
            assert rest[j] == types[j + 1];
          }
        }
        if forall i :: 0 <= i < |types| ==> !HasDefaultPattern(EffectiveType(types[i])) {
          forall j | 0 <= j < |rest|
            ensures !HasDefaultPattern(EffectiveType(rest[j]))
          {
            assert rest[j] == types[j + 1];
          }
        }
      }
    }
  }

  /** After a sequence of `parse` calls a field is hidden exactly when it was
      hidden before or some call's type hid it: hiding is never undone. */
  lemma {:induction false} ParsedAllHidden(s: State, shouldNumericPropertiesBeHiddenByType: bool, types: seq<Option<DataType>>)
    ensures ParsedAll(s, shouldNumericPropertiesBeHiddenByType, types).displayUnitsHidden <==>
      s.displayUnitsHidden
      || (shouldNumericPropertiesBeHiddenByType && exists i :: 0 <= i < |types| && EffectiveType(types[i]) != NumberType)
    ensures ParsedAll(s, shouldNumericPropertiesBeHiddenByType, types).precisionHidden <==>
      s.precisionHidden
      || (shouldNumericPropertiesBeHiddenByType && exists i :: 0 <= i < |types| && EffectiveType(types[i]) != NumberType)
    ensures ParsedAll(s, shouldNumericPropertiesBeHiddenByType, types).formatHidden <==>
      s.formatHidden || exists i :: 0 <= i < |types| && !HasDefaultPattern(EffectiveType(types[i]))
    decreases |types|
  {
    if types != [] {
      var rest := types[1..];
      ParsedAllHidden(Parsed(s, shouldNumericPropertiesBeHiddenByType, types[0]), shouldNumericPropertiesBeHiddenByType, rest);
      assert forall j :: 0 <= j < |rest| ==> rest[j] == types[j + 1];
      assert (exists i :: 0 <= i < |types| && EffectiveType(types[i]) != NumberType) <==>
        EffectiveType(types[0]) != NumberType
        || exists j :: 0 <= j < |rest| && EffectiveType(rest[j]) != NumberType
      by {
        if exists i :: 0 <= i < |types| && EffectiveType(types[i]) != NumberType {
          var i :| 0 <= i < |types| && EffectiveType(types[i]) != NumberType;
          if i > 0 { assert EffectiveType(rest[i - 1]) != NumberType; }
        }
      }
      assert (exists i :: 0 <= i < |types| && !HasDefaultPattern(EffectiveType(types[i]))) <==>
        !HasDefaultPattern(EffectiveType(types[0]))
        || exists j :: 0 <= j < |rest| && !HasDefaultPattern(EffectiveType(rest[j]))
      by {
        if exists i :: 0 <= i < |types| && !HasDefaultPattern(EffectiveType(types[i])) {
          var i :| 0 <= i < |types| && !HasDefaultPattern(EffectiveType(types[i]));
          if i > 0 { assert !HasDefaultPattern(EffectiveType(rest[i - 1])); }
        }
      }
    }
  }

  /** The state after a sequence of `setColumnFormat` calls, the first one first. */
  function ColumnFormatsSet(s: State, formats: seq<JsStr>): State
    decreases |formats|
  {
    if formats == [] then s else ColumnFormatsSet(ColumnFormatSet(s, formats[0]), formats[1..])
  }

  /** `i` is the last truthy argument in `formats`. */
  predicate LastTruthyAt(formats: seq<JsStr>, i: int) {
    0 <= i < |formats| && Truthy(formats[i])
    && forall j :: i < j < |formats| ==> !Truthy(formats[j])
  }

  /** After a sequence of `setColumnFormat` calls the column format is the last
      truthy argument, or the old one when every argument was falsy; nothing
      else changes. */
  lemma {:induction false} ColumnFormatLastTruthyWins(s: State, formats: seq<JsStr>)
    ensures ColumnFormatsSet(s, formats) == s.(columnFormat := ColumnFormatsSet(s, formats).columnFormat)
    ensures (forall i :: 0 <= i < |formats| ==> !Truthy(formats[i])) ==>
      ColumnFormatsSet(s, formats).columnFormat == s.columnFormat
    ensures forall i {:trigger LastTruthyAt(formats, i)} :: LastTruthyAt(formats, i) ==>
      ColumnFormatsSet(s, formats).columnFormat == formats[i]
    decreases |formats|
  {
    if formats != [] {
      var rest := formats[1..];
      ColumnFormatLastTruthyWins(ColumnFormatSet(s, formats[0]), rest);
      assert forall j :: 0 <= j < |rest| ==> rest[j] == formats[j + 1];
      forall i | LastTruthyAt(formats, i)
        ensures ColumnFormatsSet(s, formats).columnFormat == formats[i]
      {
        if i > 0 {
          assert LastTruthyAt(rest, i - 1);
        }
      }
    }
  }

  /** The keys `getValueByKey` knows; `AbsentKey` stands for a name no field carries. */
  datatype Key = FormatKey | DefaultFormatKey | ColumnFormatKey | DisplayUnitsKey
               | PrecisionKey | DensityKey | MinPrecisionKey | MaxPrecisionKey
               | ShouldNumericPropertiesBeHiddenByTypeKey | AbsentKey

  /** What a key looks up: a string slot, a number, or a numeric input widget
      given by its name and its current value. */
  datatype FieldValue = Text(text: JsStr) | Number(number: int) | Boolean(flag: bool)
                     | NumericInput(name: string, value: int)

  class NumberDescriptorBase {
    var defaultFormat: JsStr
    var columnFormat: JsStr
    var displayUnits: int
    /** Value of the label density slider, named "percentile". */
    var density: int
    /** Value of the `format` text input. */
    var formatValue: JsStr
    /** Value of the decimal places input, named "precision". */
    var precision: int
    /** The bounds handed to the decimal places input as validator metadata. */
    const minPrecision: int := 0
    const maxPrecision: int := 17
    /** The policy fixed at construction: hide the numeric fields for non-number types. */
    const shouldNumericPropertiesBeHiddenByType: bool
    /** Whether each field has been taken out of the formatting panel. */
    var displayUnitsHidden: bool
    var precisionHidden: bool
    var formatHidden: bool

    function Snapshot(): State
      reads this
    {
      State(defaultFormat, columnFormat, formatValue, displayUnitsHidden, precisionHidden, formatHidden)
    }

    constructor (shouldPropertiesBeHiddenByType: bool := false)
      ensures shouldNumericPropertiesBeHiddenByType == shouldPropertiesBeHiddenByType
      ensures defaultFormat == Null && columnFormat == Null && formatValue == Null
      ensures displayUnits == 0 && density == 100 && precision == 0
      ensures !displayUnitsHidden && !precisionHidden && !formatHidden
    {
      defaultFormat, columnFormat, formatValue := Null, Null, Null;
      displayUnits, density, precision := 0, 100, 0;
      shouldNumericPropertiesBeHiddenByType := shouldPropertiesBeHiddenByType;
      displayUnitsHidden, precisionHidden, formatHidden := false, false, false;
    }

    /** The effective format: the format value if truthy, else the column
        format if truthy, else the default format as it stands. */
    function GetFormat(): (r: JsStr)
      reads this
      ensures Truthy(formatValue) ==> r == formatValue
      ensures !Truthy(formatValue) && Truthy(columnFormat) ==> r == columnFormat
      ensures !Truthy(formatValue) && !Truthy(columnFormat) ==> r == defaultFormat
      ensures r == FirstTruthy([formatValue, columnFormat], defaultFormat)
      ensures r == Null <==> !Truthy(formatValue) && !Truthy(columnFormat) && defaultFormat == Null
    {
      assert [formatValue, columnFormat][1..] == [columnFormat];
      Or(Or(formatValue, columnFormat), defaultFormat)
    }

    /** A falsy argument is ignored; a truthy one replaces the column format. */
    method SetColumnFormat(format: JsStr)
      modifies this`columnFormat
      ensures Snapshot() == ColumnFormatSet(old(Snapshot()), format)
      ensures !Truthy(format) ==> columnFormat == old(columnFormat)
      ensures Truthy(format) ==> columnFormat == format
    {
      if !Truthy(format) {
        return;
      }
      columnFormat := format;
    }

    /** The format key yields the effective format, not the stored format
        value; every other key yields the field stored under it. */
    function GetValueByKey(key: Key): (r: FieldValue)
      reads this
      ensures key == FormatKey ==> r == Text(GetFormat())
      ensures key == DefaultFormatKey ==> r == Text(defaultFormat)
      ensures key == ColumnFormatKey ==> r == Text(columnFormat)
      ensures key == DisplayUnitsKey ==> r == Number(displayUnits)
      ensures key == PrecisionKey ==> r == NumericInput("precision", precision)
      ensures key == DensityKey ==> r == NumericInput("percentile", density)
      ensures key == MinPrecisionKey ==> r == Number(minPrecision)
      ensures key == MaxPrecisionKey ==> r == Number(maxPrecision)
      ensures key == ShouldNumericPropertiesBeHiddenByTypeKey ==> r == Boolean(shouldNumericPropertiesBeHiddenByType)
      ensures key == AbsentKey ==> r == Text(Undef)
    {
      match key
      case FormatKey => Text(GetFormat())
      case DefaultFormatKey => Text(defaultFormat)
      case ColumnFormatKey => Text(columnFormat)
      case DisplayUnitsKey => Number(displayUnits)
      case PrecisionKey => NumericInput("precision", precision)
      case DensityKey => NumericInput("percentile", density)
      case MinPrecisionKey => Number(minPrecision)
      case MaxPrecisionKey => Number(maxPrecision)
      case ShouldNumericPropertiesBeHiddenByTypeKey => Boolean(shouldNumericPropertiesBeHiddenByType)
      case AbsentKey => Text(Undef)
    }

    method HideNumberProperties()
      modifies this`displayUnitsHidden, this`precisionHidden
      ensures displayUnitsHidden && precisionHidden
    {
      displayUnitsHidden, precisionHidden := true, true;
    }

    method HideFormatProperty()
      modifies this`formatHidden
      ensures formatHidden
    {
      formatHidden := true;
    }

    method ApplyDefaultFormatByType(t: DataType)
      modifies this`defaultFormat, this`formatValue
      ensures Snapshot() == DefaultFormatApplied(old(Snapshot()), t)
      ensures old(Truthy(defaultFormat)) ==> defaultFormat == old(defaultFormat) && formatValue == old(formatValue)
      // a date with neither a truthy format value nor a truthy column format now resolves to the date pattern
      ensures !old(Truthy(defaultFormat)) && t == DateType && !old(Truthy(formatValue)) && !Truthy(columnFormat) ==>
        GetFormat() == Str(DateFormat)
      ensures !old(Truthy(defaultFormat)) && t == NumberType && !Truthy(formatValue) && !Truthy(columnFormat) ==>
        GetFormat() == Str(NumberFormat)
    {
      if Truthy(defaultFormat) {
        return;
      }
      match t
      case DateType =>
        defaultFormat := Str(DateFormat);
        if IsNullish(formatValue) {
          formatValue := defaultFormat;
        }
      case NumberType =>
        defaultFormat := Str(NumberFormat);
      case OtherType =>
        defaultFormat := Undef;
    }

    method HidePropertiesByType(t: Option<DataType>)
      modifies this`defaultFormat, this`formatValue
      modifies this`displayUnitsHidden, this`precisionHidden, this`formatHidden
      ensures Snapshot() == Parsed(old(Snapshot()), shouldNumericPropertiesBeHiddenByType, t)
    {
      var ty := EffectiveType(t);
      ApplyDefaultFormatByType(ty);
      if shouldNumericPropertiesBeHiddenByType && ty != NumberType {
        HideNumberProperties();
      }
      if !(ty == NumberType || ty == DateType) {
        HideFormatProperty();
      }
    }

    /** The bound type is the one in the parser options; the base class's own
        parsing step does not touch these fields and is not modelled. */
    method Parse(t: Option<DataType>)
      modifies this`defaultFormat, this`formatValue
      modifies this`displayUnitsHidden, this`precisionHidden, this`formatHidden
      ensures Snapshot() == Parsed(old(Snapshot()), shouldNumericPropertiesBeHiddenByType, t)
      ensures columnFormat == old(columnFormat)
      ensures displayUnits == old(displayUnits) && precision == old(precision) && density == old(density)
      ensures old(displayUnitsHidden) ==> displayUnitsHidden
      ensures old(precisionHidden) ==> precisionHidden
      ensures old(formatHidden) ==> formatHidden
    {
      HidePropertiesByType(t);
    }
  }
}
