/** The schema-lite argument validator (backend/tool_validation.py). */
module Validation {
  import opened PyText
  import opened Json

  datatype Kind = StringKind | IntegerKind | BooleanKind | OtherKind(name: string)

  datatype Spec = Spec(
    kind: Kind, minLength: Option<int>, maxLength: Option<int>, choices: Option<seq<string>>,
    utcDatetime: bool, minimum: Option<int>, maximum: Option<int>)

  datatype Property = Property(name: string, spec: Spec)

  datatype Schema = Schema(properties: seq<Property>, required: seq<string>, additionalAllowed: bool)

  datatype Rejection =
    | UnknownArgument | MissingRequired(name: string)
    | NotString | TooShort | TooLong | NotAChoice | BadDatetime
    | NotInteger | TooSmall | TooLarge | NotBoolean | UnsupportedKind

  /** The datetime library: the UTC form of a timezone-aware text, or a refusal. */
  type Normaliser = string -> Option<string>

  /** Property names are dictionary keys. */
  ghost predicate Distinct(ps: seq<Property>) {
    forall i, j :: 0 <= i < j < |ps| ==> ps[i].name != ps[j].name
  }

  function Names(ps: seq<Property>): set<string> {
    set i | 0 <= i < |ps| :: ps[i].name
  }

  function TextRejection(spec: Spec, text: string): Option<Rejection> {
    if spec.minLength.Some? && |text| < spec.minLength.value then Some(TooShort)
    else if spec.maxLength.Some? && |text| > spec.maxLength.value then Some(TooLong)
    else if spec.choices.Some? && text !in spec.choices.value then Some(NotAChoice)
    else None
  }

  function ValidateValue(norm: Normaliser, spec: Spec, v: Value): Result<Value, Rejection> {
    match spec.kind
    case StringKind =>
      if !v.Str? then Err(NotString)
      else
        var text := Strip(v.s);
        if TextRejection(spec, text).Some? then Err(TextRejection(spec, text).value)
        else if !spec.utcDatetime then Ok(Str(text))
        else if norm(text).None? then Err(BadDatetime)
        else Ok(Str(norm(text).value))
    case IntegerKind =>
      if !v.Int? then Err(NotInteger)
      else if spec.minimum.Some? && v.n < spec.minimum.value then Err(TooSmall)
      else if spec.maximum.Some? && v.n > spec.maximum.value then Err(TooLarge)
      else Ok(v)
    case BooleanKind => if v.Bool? then Ok(v) else Err(NotBoolean)
    case OtherKind(_) => Err(UnsupportedKind)
  }

  predicate Provided(args: Args, name: string) {
    name in args && args[name] != Null
  }

  /** Property by property, in schema order; the first violation decides. */
  function Checked(norm: Normaliser, ps: seq<Property>, required: seq<string>, args: Args): Result<Args, Rejection> {
    if ps == [] then Ok(map[])
    else
      var p := ps[|ps| - 1];
      match Checked(norm, ps[..|ps| - 1], required, args)
      case Err(e) => Err(e)
      case Ok(m) =>
        if !Provided(args, p.name) then
          if p.name in required then Err(MissingRequired(p.name)) else Ok(m)
        else
          match ValidateValue(norm, p.spec, args[p.name])
          case Err(e) => Err(e)
          case Ok(w) => Ok(m[p.name := w])
  }

  function Validate(norm: Normaliser, schema: Schema, args: Args): Result<Args, Rejection> {
    if !schema.additionalAllowed && !(args.Keys <= Names(schema.properties)) then Err(UnknownArgument)
    else Checked(norm, schema.properties, schema.required, args)
  }

  /** The validating loop over the schema's properties. */
  method ValidateArguments(norm: Normaliser, schema: Schema, args: Args) returns (r: Result<Args, Rejection>)
    ensures r == Validate(norm, schema, args)
  {
    var ps := schema.properties;
    if !schema.additionalAllowed && !(args.Keys <= Names(ps)) {
      return Err(UnknownArgument);
    }
    var validated: Args := map[];
    for i := 0 to |ps|
      invariant Checked(norm, ps[..i], schema.required, args) == Ok(validated)
    {
      assert ps[..i + 1][..i] == ps[..i];
      if !Provided(args, ps[i].name) {
        if ps[i].name in schema.required {
          CheckedPrefixErr(norm, ps, schema.required, args, i + 1);
          return Err(MissingRequired(ps[i].name));
        }
        continue;
      }
      var w := ValidateValue(norm, ps[i].spec, args[ps[i].name]);
      if w.Err? {
        CheckedPrefixErr(norm, ps, schema.required, args, i + 1);
        return Err(w.error);
      }
      validated := validated[ps[i].name := w.value];
    }
    assert ps[..|ps|] == ps;
    r := Ok(validated);
  }

  lemma {:induction false} CheckedPrefixErr(norm: Normaliser, ps: seq<Property>, required: seq<string>, args: Args,
                                            i: nat)
    requires i <= |ps| && Checked(norm, ps[..i], required, args).Err?
    ensures Checked(norm, ps, required, args) == Checked(norm, ps[..i], required, args)
    decreases |ps|
  {
    if i == |ps| {
      assert ps[..i] == ps;
    } else {
      assert ps[..|ps| - 1][..i] == ps[..i];
      CheckedPrefixErr(norm, ps[..|ps| - 1], required, args, i);
    }
  }

  /** A schema without properties accepts the empty arguments. */
  lemma EmptySchemaAcceptsNothing(norm: Normaliser, schema: Schema)
    requires schema.properties == []
    ensures Validate(norm, schema, map[]) == Ok(map[])
  {
    var none: Args := map[];
    assert none.Keys == {};
  }

  // ----- what acceptance means -------------------------------------------------

  /** The requirement one property puts on the arguments. */
  ghost predicate Satisfied(norm: Normaliser, p: Property, required: seq<string>, args: Args) {
    if Provided(args, p.name) then ValidateValue(norm, p.spec, args[p.name]).Ok?
    else p.name !in required
  }

  /** The accepted map: one entry per provided property, holding its validated value. */
  ghost predicate IsValidated(norm: Normaliser, ps: seq<Property>, args: Args, m: Args) {
    && (forall i :: 0 <= i < |ps| ==> EntryOf(norm, ps[i], args, m))
    && (forall k :: k in m ==> k in Names(ps))
  }

  ghost predicate AllSatisfied(norm: Normaliser, ps: seq<Property>, required: seq<string>, args: Args) {
    forall i :: 0 <= i < |ps| ==> Satisfied(norm, ps[i], required, args)
  }

  lemma {:induction false} AcceptedMeaning(norm: Normaliser, ps: seq<Property>, required: seq<string>, args: Args)
    ensures Checked(norm, ps, required, args).Ok? <==> AllSatisfied(norm, ps, required, args)
  {
    if ps != [] {
      var n := |ps| - 1;
      AcceptedMeaning(norm, ps[..n], required, args);
      assert AllSatisfied(norm, ps, required, args) <==>
             AllSatisfied(norm, ps[..n], required, args) && Satisfied(norm, ps[n], required, args) by {
        assert forall i :: 0 <= i < n ==> ps[..n][i] == ps[i];
        if AllSatisfied(norm, ps[..n], required, args) {
          assert forall i :: 0 <= i < n ==> Satisfied(norm, ps[..n][i], required, args);
        }
      }
    }
  }

  lemma NamesStep(ps: seq<Property>)
    requires ps != [] && Distinct(ps)
    ensures var n := |ps| - 1; Names(ps) == Names(ps[..n]) + {ps[n].name} && ps[n].name !in Names(ps[..n])
  {
    var n := |ps| - 1;
    assert forall i :: 0 <= i < n ==> ps[..n][i] == ps[i];
  }

  /** How the entry of property `p` follows from the arguments. */
  ghost predicate EntryOf(norm: Normaliser, p: Property, args: Args, m: Args) {
    && (p.name in m <==> Provided(args, p.name))
    && (p.name in m ==> ValidateValue(norm, p.spec, args[p.name]) == Ok(m[p.name]))
  }

  /** One more property: its value joins the map, the others stay. */
  lemma ValidatedStep(norm: Normaliser, ps: seq<Property>, args: Args, m0: Args, m: Args)
    requires ps != [] && Distinct(ps)
    requires IsValidated(norm, ps[..|ps| - 1], args, m0)
    requires var p := ps[|ps| - 1]; EntryOf(norm, p, args,
                                            m) && m - {p.name} == m0 - {p.name} && m.Keys <= m0.Keys + {p.name}
    ensures IsValidated(norm, ps, args, m)
  {
    var n := |ps| - 1;
    NamesStep(ps);
    forall i | 0 <= i < |ps|
      ensures EntryOf(norm, ps[i], args, m)
    {
      if i < n {
        assert ps[..n][i] == ps[i] && EntryOf(norm, ps[..n][i], args, m0);
        assert ps[i].name in Names(ps[..n]);
        SameElsewhere(m0, m, ps[n].name, ps[i].name);
      }
    }
  }

  lemma SameElsewhere(a: Args, b: Args, except: string, k: string)
    requires a - {except} == b - {except} && k != except
    ensures k in a <==> k in b
    ensures k in a ==> a[k] == b[k]
  {
    assert k in a <==> k in a - {except};
    assert k in b <==> k in b - {except};
    if k in a {
      assert (a - {except})[k] == a[k] && (b - {except})[k] == b[k];
    }
  }

  /** Arguments are accepted exactly when every property is satisfied, and the
      result is then determined property by property. */
  lemma {:induction false} CheckedMeaning(norm: Normaliser, ps: seq<Property>, required: seq<string>, args: Args)
    requires Distinct(ps)
    ensures Checked(norm, ps, required, args).Ok? <==> AllSatisfied(norm, ps, required, args)
    ensures Checked(norm, ps, required, args).Ok? ==>
              IsValidated(norm, ps, args, Checked(norm, ps, required, args).value)
  {
    AcceptedMeaning(norm, ps, required, args);
    if ps != [] && Checked(norm, ps, required, args).Ok? {
      var n := |ps| - 1;
      CheckedMeaning(norm, ps[..n], required, args);
      ValidatedStep(norm, ps, args, Checked(norm, ps[..n], required, args).value,
                    Checked(norm, ps, required, args).value);
    }
  }

  /** A text within the declared lengths and among the declared choices. */
  ghost predicate InBounds(spec: Spec, text: string) {
    && (spec.minLength.Some? ==> spec.minLength.value <= |text|)
    && (spec.maxLength.Some? ==> |text| <= spec.maxLength.value)
    && (spec.choices.Some? ==> text in spec.choices.value)
  }

  /** A value that meets its declared bounds. */
  ghost predicate Meets(spec: Spec, v: Value) {
    match spec.kind
    case StringKind => v.Str? && Strip(v.s) == v.s && InBounds(spec, v.s)
    case IntegerKind =>
      v.Int? && (spec.minimum.Some? ==> spec.minimum.value <= v.n) && (spec.maximum.Some? ==> v.n <= spec.maximum.value)
    case BooleanKind => v.Bool?
    case OtherKind(_) => false
  }

  /** A normalised datetime that validation would leave alone. */
  ghost predicate Stable(norm: Normaliser, spec: Spec, text: string) {
    Strip(text) == text && TextRejection(spec, text) == None && norm(text) == Some(text)
  }

  lemma ValueRevalidates(norm: Normaliser, spec: Spec, v: Value, w: Value)
    requires ValidateValue(norm, spec, v) == Ok(w)
    ensures w != Null
    ensures !(spec.kind.StringKind? && spec.utcDatetime) ==> Meets(spec, w) && ValidateValue(norm, spec, w) == Ok(w)
  {
    if spec.kind.StringKind? && !spec.utcDatetime {
      StripIdempotent(v.s);
      assert w == Str(Strip(v.s));
    }
  }

  /** A value is accepted exactly when it has the declared kind and, stripped if it is a text, meets the bounds and,
      for a datetime, can be normalised; the stripped or normalised form is the result. */
  lemma AcceptsExactly(norm: Normaliser, spec: Spec, v: Value)
    ensures ValidateValue(norm, spec, v).Ok? <==>
              match spec.kind
              case StringKind =>
                v.Str? && InBounds(spec, Strip(v.s)) && (spec.utcDatetime ==> norm(Strip(v.s)).Some?)
              case IntegerKind => Meets(spec, v)
              case BooleanKind => v.Bool?
              case OtherKind(_) => false
    ensures ValidateValue(norm, spec, v).Ok? ==>
              ValidateValue(norm, spec, v).value ==
                if !v.Str? then v else if spec.utcDatetime then Str(norm(Strip(v.s)).value) else Str(Strip(v.s))
  {
  }

  /** A refusal names a requirement that the value fails. */
  lemma RejectionIsRight(norm: Normaliser, spec: Spec, v: Value)
    requires ValidateValue(norm, spec, v).Err?
    ensures match ValidateValue(norm, spec, v).error
            case NotString => spec.kind.StringKind? && !v.Str?
            case TooShort => v.Str? && spec.minLength.Some? && |Strip(v.s)| < spec.minLength.value
            case TooLong => v.Str? && spec.maxLength.Some? && |Strip(v.s)| > spec.maxLength.value
            case NotAChoice => v.Str? && spec.choices.Some? && Strip(v.s) !in spec.choices.value
            case BadDatetime => v.Str? && spec.utcDatetime && norm(Strip(v.s)).None?
            case NotInteger => spec.kind.IntegerKind? && !v.Int?
            case TooSmall => v.Int? && spec.minimum.Some? && v.n < spec.minimum.value
            case TooLarge => v.Int? && spec.maximum.Some? && v.n > spec.maximum.value
            case NotBoolean => spec.kind.BooleanKind? && !v.Bool?
            case UnsupportedKind => spec.kind.OtherKind?
            case _ => false
  {
  }

  /** What validating a datetime text returns. */
  lemma DatetimeValue(norm: Normaliser, spec: Spec, v: Value, w: Value)
    requires spec.kind.StringKind? && spec.utcDatetime && ValidateValue(norm, spec, v) == Ok(w)
    ensures v.Str? && w.Str? && norm(Strip(v.s)) == Some(w.s)
  {
  }

  /** A text in stripped form is validated as it stands. */
  lemma StrippedDatetime(norm: Normaliser, spec: Spec, text: string)
    requires spec.kind.StringKind? && spec.utcDatetime && Strip(text) == text
    ensures ValidateValue(norm, spec, Str(text)) == Ok(Str(text)) <==>
              TextRejection(spec, text) == None && norm(text) == Some(text)
  {
  }

  lemma DatetimeRevalidates(norm: Normaliser, spec: Spec, v: Value, w: Value)
    requires spec.kind.StringKind? && spec.utcDatetime && ReturnsStripped(norm)
    requires ValidateValue(norm, spec, v) == Ok(w)
    ensures w.Str?
    ensures ValidateValue(norm, spec, w) == Ok(w) <==> Stable(norm, spec, w.s)
  {
    DatetimeValue(norm, spec, v, w);
    assert StrippedAt(norm, Strip(v.s));
    StrippedDatetime(norm, spec, w.s);
  }

  ghost predicate StrippedAt(norm: Normaliser, t: string) {
    norm(t).Some? ==> Strip(norm(t).value) == norm(t).value
  }

  /** The datetime library never returns surrounding whitespace. */
  ghost predicate ReturnsStripped(norm: Normaliser) {
    forall t :: StrippedAt(norm, t)
  }

  ghost predicate DatetimesStable(norm: Normaliser, schema: Schema, m: Args) {
    forall i :: 0 <= i < |schema.properties| ==>
      var p := schema.properties[i];
      p.spec.kind.StringKind? && p.spec.utcDatetime && p.name in m && m[p.name].Str? ==>
        Stable(norm, p.spec, m[p.name].s)
  }

  /** Validation is a projection exactly when every normalised datetime is stable
      under its own property; its keys lie between required and declared. */
  lemma ValidatingTwice(norm: Normaliser, schema: Schema, args: Args, m: Args)
    requires Distinct(schema.properties) && ReturnsStripped(norm)
    requires Validate(norm, schema, args) == Ok(m)
    ensures m.Keys <= Names(schema.properties) && m.Keys <= args.Keys
    ensures forall k :: k in schema.required && k in Names(schema.properties) ==> k in m
    ensures Validate(norm, schema, m) == Ok(m) <==> DatetimesStable(norm, schema, m)
  {
    var ps := schema.properties;
    CheckedMeaning(norm, ps, schema.required, args);
    CheckedMeaning(norm, ps, schema.required, m);
    forall k | k in schema.required && k in Names(ps) ensures k in m {
      var i :| 0 <= i < |ps| && ps[i].name == k;
      assert Satisfied(norm, ps[i], schema.required, args);
    }
    forall k | k in m ensures k in args {
      var i :| 0 <= i < |ps| && ps[i].name == k;
    }
    forall i | 0 <= i < |ps| && ps[i].name in m
      ensures m[ps[i].name] != Null
      ensures ps[i].spec.kind.StringKind? && ps[i].spec.utcDatetime ==> m[ps[i].name].Str?
      ensures ValidateValue(norm, ps[i].spec, m[ps[i].name]) == Ok(m[ps[i].name]) <==>
              (ps[i].spec.kind.StringKind? && ps[i].spec.utcDatetime ==> Stable(norm, ps[i].spec, m[ps[i].name].s))
    {
      ValueRevalidates(norm, ps[i].spec, args[ps[i].name], m[ps[i].name]);
      if ps[i].spec.kind.StringKind? && ps[i].spec.utcDatetime {
        DatetimeRevalidates(norm, ps[i].spec, args[ps[i].name], m[ps[i].name]);
      }
    }
    if DatetimesStable(norm, schema, m) {
      StableRevalidates(norm, schema, m);
    } else {
      var i :| 0 <= i < |ps| && ps[i].spec.kind.StringKind? && ps[i].spec.utcDatetime && ps[i].name in m
               && m[ps[i].name].Str? && !Stable(norm, ps[i].spec, m[ps[i].name].s);
      assert ValidateValue(norm, ps[i].spec, m[ps[i].name]) != Ok(m[ps[i].name]);
    }
  }

  lemma StableRevalidates(norm: Normaliser, schema: Schema, m: Args)
    requires Distinct(schema.properties) && m.Keys <= Names(schema.properties)
    requires forall k :: k in schema.required && k in Names(schema.properties) ==> k in m
    requires forall i :: 0 <= i < |schema.properties| && schema.properties[i].name in m ==>
               m[schema.properties[i].name] != Null &&
               ValidateValue(norm, schema.properties[i].spec,
                             m[schema.properties[i].name]) == Ok(m[schema.properties[i].name])
    ensures Validate(norm, schema, m) == Ok(m)
  {
    var ps := schema.properties;
    CheckedMeaning(norm, ps, schema.required, m);
    forall i | 0 <= i < |ps| ensures Satisfied(norm, ps[i], schema.required, m) {
      assert ps[i].name in Names(ps);
    }
    var u := Checked(norm, ps, schema.required, m).value;
    forall k | k in Names(ps) ensures k in u <==> k in m
      ensures k in m ==> k in u && u[k] == m[k]
    {
      var i :| 0 <= i < |ps| && ps[i].name == k;
    }
    assert u == m;
  }

  /** Without a datetime property validation is a projection and every accepted value meets its bounds. */
  lemma PlainSchemaIsProjection(norm: Normaliser, schema: Schema, args: Args, m: Args)
    requires Distinct(schema.properties)
    requires forall i :: 0 <= i < |schema.properties| ==> !schema.properties[i].spec.utcDatetime
    requires Validate(norm, schema, args) == Ok(m)
    ensures Validate(norm, schema, m) == Ok(m)
    ensures forall i :: 0 <= i < |schema.properties| && schema.properties[i].name in m ==>
              Meets(schema.properties[i].spec, m[schema.properties[i].name])
  {
    var ps := schema.properties;
    CheckedMeaning(norm, ps, schema.required, args);
    forall k | k in schema.required && k in Names(ps) ensures k in m {
      var i :| 0 <= i < |ps| && ps[i].name == k;
      assert Satisfied(norm, ps[i], schema.required, args);
    }
    forall i | 0 <= i < |ps| && ps[i].name in m
      ensures m[ps[i].name] != Null && Meets(ps[i].spec, m[ps[i].name])
      ensures ValidateValue(norm, ps[i].spec, m[ps[i].name]) == Ok(m[ps[i].name])
    {
      ValueRevalidates(norm, ps[i].spec, args[ps[i].name], m[ps[i].name]);
    }
    StableRevalidates(norm, schema, m);
  }

  // ----- other spellings of the same arguments -------------------------------------

  /** Nothing but `args` itself validates to `args`. */
  ghost predicate OneSpelling(norm: Normaliser, schema: Schema, args: Args) {
    forall raw :: Validate(norm, schema, raw) == Ok(args) ==> raw == args
  }

  /** Both maps say the same about one property. */
  ghost predicate SameEntry(norm: Normaliser, p: Property, a: Args, b: Args) {
    && (Provided(a, p.name) <==> Provided(b, p.name))
    && (Provided(a, p.name) ==> ValidateValue(norm, p.spec, a[p.name]) == ValidateValue(norm, p.spec, b[p.name]))
  }

  lemma {:induction false} SameEntriesCheck(norm: Normaliser, ps: seq<Property>, required: seq<string>, a: Args,
                                            b: Args)
    requires forall p :: p in ps ==> SameEntry(norm, p, a, b)
    ensures Checked(norm, ps, required, a) == Checked(norm, ps, required, b)
  {
    if ps != [] {
      SameEntriesCheck(norm, ps[..|ps| - 1], required, a, b);
      assert SameEntry(norm, ps[|ps| - 1], a, b);
    }
  }

  /** A name longer than every declared one. */
  lemma {:induction false} FreshName(ps: seq<Property>) returns (k: string)
    ensures k != "" && k !in Names(ps)
    ensures forall p :: p in ps ==> |p.name| < |k|
  {
    if ps == [] {
      k := "x";
    } else {
      var p := ps[|ps| - 1];
      k := FreshName(ps[..|ps| - 1]);
      k := k + p.name;
      assert forall q :: q in ps ==> q in ps[..|ps| - 1] || q == p;
    }
  }

  lemma {:induction false} StripSkipsBlank(s: string)
    ensures Strip(" " + s) == Strip(s)
  {
    assert (" " + s)[1..] == s;
  }

  /** Where an extra key is allowed, an unread key gives another spelling. */
  lemma ExtraKeyRespells(norm: Normaliser, schema: Schema, raw: Args, args: Args)
    requires schema.additionalAllowed && Validate(norm, schema, raw) == Ok(args)
    ensures !OneSpelling(norm, schema, args)
  {
    var k := FreshName(schema.properties);
    var a, b := raw[k := Null], raw[k := Bool(true)];
    assert a[k] != b[k];
    SameEntriesCheck(norm, schema.properties, schema.required, raw, a);
    SameEntriesCheck(norm, schema.properties, schema.required, raw, b);
    assert Validate(norm, schema, a) == Ok(args) && Validate(norm, schema, b) == Ok(args);
  }

  /** An absent property may also be given as an explicit null. */
  lemma ExplicitNullRespells(norm: Normaliser, schema: Schema, raw: Args, args: Args, name: string)
    requires Distinct(schema.properties) && Validate(norm, schema, raw) == Ok(args)
    requires name in Names(schema.properties) && name !in args
    ensures !OneSpelling(norm, schema, args)
  {
    CheckedMeaning(norm, schema.properties, schema.required, raw);
    var i :| 0 <= i < |schema.properties| && schema.properties[i].name == name;
    assert EntryOf(norm, schema.properties[i], raw, args);
    var a := raw[name := Null];
    SameEntriesCheck(norm, schema.properties, schema.required, raw, a);
    assert Validate(norm, schema, a) == Ok(args) && name in a;
  }

  /** A blank before a text changes no verdict. */
  lemma PaddedValidatesAlike(norm: Normaliser, schema: Schema, raw: Args, name: string, s: string)
    requires name in raw && raw[name] == Str(s)
    ensures Validate(norm, schema, raw[name := Str(" " + s)]) == Validate(norm, schema, raw)
  {
    var a := raw[name := Str(" " + s)];
    StripSkipsBlank(s);
    forall p | p in schema.properties ensures SameEntry(norm, p, raw, a) {
    }
    SameEntriesCheck(norm, schema.properties, schema.required, raw, a);
    assert a.Keys == raw.Keys;
  }

  /** The validated text of a property comes from a text. */
  lemma TextFromText(norm: Normaliser, schema: Schema, raw: Args, args: Args, name: string)
    requires Distinct(schema.properties) && Validate(norm, schema, raw) == Ok(args)
    requires name in args && args[name].Str?
    ensures name in raw && raw[name].Str?
  {
    CheckedMeaning(norm, schema.properties, schema.required, raw);
    var i :| 0 <= i < |schema.properties| && schema.properties[i].name == name;
    assert EntryOf(norm, schema.properties[i], raw, args);
  }

  /** Blanks before a text are stripped away. */
  lemma PaddingRespells(norm: Normaliser, schema: Schema, raw: Args, args: Args, name: string)
    requires Distinct(schema.properties) && Validate(norm, schema, raw) == Ok(args)
    requires name in args && args[name].Str?
    ensures !OneSpelling(norm, schema, args)
  {
    TextFromText(norm, schema, raw, args, name);
    var s := raw[name].s;
    var a := raw[name := Str(" " + s)];
    var b := a[name := Str(" " + (" " + s))];
    PaddedValidatesAlike(norm, schema, raw, name, s);
    PaddedValidatesAlike(norm, schema, a, name, " " + s);
    assert |a[name].s| != |b[name].s|;
    assert a != args || b != args;
  }

  lemma ScalarValidatesToItself(norm: Normaliser, spec: Spec, v: Value, w: Value)
    requires ValidateValue(norm, spec, v) == Ok(w) && !w.Str?
    ensures v == w
  {
  }

  lemma ScalarsValidateToThemselves(norm: Normaliser, schema: Schema, raw: Args, args: Args)
    requires Distinct(schema.properties) && Validate(norm, schema, raw) == Ok(args)
    requires !schema.additionalAllowed && args.Keys == Names(schema.properties)
    requires forall k :: k in args ==> !args[k].Str?
    ensures raw == args
  {
    CheckedMeaning(norm, schema.properties, schema.required, raw);
    forall k | k in args ensures k in raw && raw[k] == args[k] {
      var i :| 0 <= i < |schema.properties| && schema.properties[i].name == k;
      assert EntryOf(norm, schema.properties[i], raw, args);
      ScalarValidatesToItself(norm, schema.properties[i].spec, raw[k], args[k]);
    }
  }

  /** Accepted arguments have one spelling if and only if the schema takes no extra key, they give every
      declared property, and none of their values is a text. */
  lemma OneSpellingExactly(norm: Normaliser, schema: Schema, raw: Args, args: Args)
    requires Distinct(schema.properties) && Validate(norm, schema, raw) == Ok(args)
    ensures OneSpelling(norm, schema, args) <==>
              && !schema.additionalAllowed && args.Keys == Names(schema.properties)
              && forall k :: k in args ==> !args[k].Str?
  {
    CheckedMeaning(norm, schema.properties, schema.required, raw);
    if schema.additionalAllowed {
      ExtraKeyRespells(norm, schema, raw, args);
    } else if args.Keys != Names(schema.properties) {
      var name :| name in Names(schema.properties) && name !in args;
      ExplicitNullRespells(norm, schema, raw, args, name);
    } else if k :| k in args && args[k].Str? {
      PaddingRespells(norm, schema, raw, args, k);
    } else {
      forall r | Validate(norm, schema, r) == Ok(args) ensures r == args {
        ScalarsValidateToThemselves(norm, schema, r, args);
      }
    }
  }

  // ----- the write tool ----------------------------------------------------------

  function Text(minLength: int, maxLength: int): Spec {
    Spec(StringKind, Some(minLength), Some(maxLength), None, false, None, None)
  }

  const TASKS_CREATE: Schema := Schema(
    [Property("title", Text(1, 500)), Property("project", Text(1, 100)),
     Property("due_at", Text(1, 64).(utcDatetime := true))],
    ["title"], false)

  /** What the ISO 8601 library promises of its UTC output. */
  ghost predicate IsoAt(norm: Normaliser, t: string) {
    norm(t).Some? ==>
      var n := norm(t).value; Strip(n) == n && 1 <= |n| <= 64 && norm(n) == Some(n)
  }

  ghost predicate IsoNormaliser(norm: Normaliser) {
    forall t :: IsoAt(norm, t)
  }

  /** Whether the UTC form of a provided datetime text keeps the property's own bounds. */
  ghost predicate KeepsBounds(norm: Normaliser, p: Property, args: Args) {
    p.spec.kind.StringKind? && p.spec.utcDatetime && Provided(args, p.name) ==>
      && args[p.name].Str? && norm(Strip(args[p.name].s)).Some?
      && TextRejection(p.spec, norm(Strip(args[p.name].s)).value) == None
  }

  lemma StableExactly(norm: Normaliser, p: Property, args: Args, m: Args)
    requires IsoNormaliser(norm) && EntryOf(norm, p, args, m)
    ensures KeepsBounds(norm, p, args) <==>
              (p.spec.kind.StringKind? && p.spec.utcDatetime && p.name in m && m[p.name].Str? ==>
                 Stable(norm, p.spec, m[p.name].s))
  {
    if p.spec.kind.StringKind? && p.spec.utcDatetime && p.name in m {
      DatetimeValue(norm, p.spec, args[p.name], m[p.name]);
      assert IsoAt(norm, Strip(args[p.name].s));
    }
  }

  /** Accepted arguments are accepted again, unchanged, exactly when the UTC form of every
      datetime text they provide keeps the length bounds and the choices of its property. */
  lemma ValidatingTwiceExactly(norm: Normaliser, schema: Schema, args: Args, m: Args)
    requires Distinct(schema.properties) && IsoNormaliser(norm)
    requires Validate(norm, schema, args) == Ok(m)
    ensures Validate(norm, schema, m) == Ok(m) <==>
              forall p :: p in schema.properties ==> KeepsBounds(norm, p, args)
  {
    var ps := schema.properties;
    forall t ensures StrippedAt(norm, t) {
      assert IsoAt(norm, t);
    }
    ValidatingTwice(norm, schema, args, m);
    CheckedMeaning(norm, ps, schema.required, args);
    forall i | 0 <= i < |ps|
      ensures KeepsBounds(norm, ps[i], args) <==>
                (ps[i].spec.kind.StringKind? && ps[i].spec.utcDatetime && ps[i].name in m && m[ps[i].name].Str? ==>
                   Stable(norm, ps[i].spec, m[ps[i].name].s))
    {
      StableExactly(norm, ps[i], args, m);
    }
  }

  predicate Roomy(spec: Spec) {
    && (spec.minLength.Some? ==> spec.minLength.value <= 1)
    && (spec.maxLength.Some? ==> spec.maxLength.value >= 64) && spec.choices.None?
  }

  lemma RoomyValueIsStable(norm: Normaliser, spec: Spec, v: Value, w: Value)
    requires IsoNormaliser(norm) && Roomy(spec) && spec.kind.StringKind? && spec.utcDatetime
    requires ValidateValue(norm, spec, v) == Ok(w)
    ensures w.Str? && Stable(norm, spec, w.s)
  {
    DatetimeValue(norm, spec, v, w);
    assert IsoAt(norm, Strip(v.s));
  }

  /** A datetime property whose bounds leave room for every normalised text keeps it stable. */
  lemma RoomyDatetimesAreStable(norm: Normaliser, schema: Schema, args: Args, m: Args)
    requires Distinct(schema.properties) && IsoNormaliser(norm)
    requires forall i :: 0 <= i < |schema.properties| && schema.properties[i].spec.utcDatetime ==>
               Roomy(schema.properties[i].spec)
    requires Validate(norm, schema, args) == Ok(m)
    ensures DatetimesStable(norm, schema, m)
  {
    var ps := schema.properties;
    CheckedMeaning(norm, ps, schema.required, args);
    forall i | 0 <= i < |ps| && ps[i].spec.kind.StringKind? && ps[i].spec.utcDatetime && ps[i].name in m
      ensures m[ps[i].name].Str? && Stable(norm, ps[i].spec, m[ps[i].name].s)
    {
      RoomyValueIsStable(norm, ps[i].spec, args[ps[i].name], m[ps[i].name]);
    }
  }

  /** The frozen arguments of the write tool survive the executor's second validation unchanged. */
  lemma TasksCreateIsProjection(norm: Normaliser, args: Args, m: Args)
    requires IsoNormaliser(norm)
    requires Validate(norm, TASKS_CREATE, args) == Ok(m)
    ensures Validate(norm, TASKS_CREATE, m) == Ok(m)
    ensures "title" in m
  {
    var ps := TASKS_CREATE.properties;
    assert ps[0].name == "title" && ps[1].name == "project" && ps[2].name == "due_at";
    assert "title" in Names(ps);
    RoomyDatetimesAreStable(norm, TASKS_CREATE, args, m);
    forall t ensures StrippedAt(norm, t) {
      assert IsoAt(norm, t);
    }
    ValidatingTwice(norm, TASKS_CREATE, args, m);
  }

  /** Whenever the bound admits the given text but not its longer normal form, the first
      validation succeeds and the second fails. */
  lemma TightDatetimeFailsTwice(norm: Normaliser, name: string, limit: nat, raw: string, normal: string)
    requires Strip(raw) == raw && Strip(normal) == normal && norm(raw) == Some(normal)
    requires 1 <= |raw| <= limit < |normal|
    ensures var schema := Schema([Property(name, Text(1, limit).(utcDatetime := true))], [], false);
            && Validate(norm, schema, map[name := Str(raw)]) == Ok(map[name := Str(normal)])
            && Validate(norm, schema, map[name := Str(normal)]) == Err(TooLong)
  {
    var p := Property(name, Text(1, limit).(utcDatetime := true));
    SingleProperty(norm, p, Str(raw));
    SingleProperty(norm, p, Str(normal));
  }

  lemma SingleProperty(norm: Normaliser, p: Property, v: Value)
    requires v != Null
    ensures Validate(norm, Schema([p], [], false), map[p.name := v]) ==
            match ValidateValue(norm, p.spec, v)
            case Err(e) => Err(e)
            case Ok(w) => Ok(map[p.name := w])
  {
    assert [p][..0] == [] && [p][0] == p && p.name in Names([p]);
    assert Checked(norm, [], [], map[p.name := v]) == Ok(map[]);
  }
}
