// Redacting the arguments of a call (src/deepintshield/agentic/obligations.py).

module Obligations {
  import opened Common
  import Redaction

  // ---------------------------------------------------------------------------------------------
  // Handlers
  // ---------------------------------------------------------------------------------------------

  /** An argument: a string, or anything else. */
  datatype Value = Text(text: string) | Other(id: nat)

  const MARK := Text(Redaction.REDACTED)

  /** Reading text as Python does: lower case, trimming, what looks like a secret, what is a digit. */
  datatype Reader = Reader(
    lower: string -> string, trim: string -> string, secret: string -> bool, digit: char -> bool)

  datatype Handler = MaskPii | Secrets | Phi | Cards | Banks | Raw

  predicate Field(h: Handler, name: string) {
    match h
    case MaskPii => name in {"email", "phone", "ssn", "credit_card", "tax_id", "address"}
    case Secrets =>
      name in {"api_key", "apikey", "access_key", "secret", "client_secret", "password", "passwd", "token",
               "access_token", "refresh_token", "private_key", "credential", "credentials", "authorization", "auth",
               "session_key"}
    case Phi =>
      name in {"diagnosis", "diagnoses", "icd", "icd10", "icd_code", "mrn", "medical_record_number", "patient_id",
               "patient_name", "treatment", "medication", "prescription", "lab_result", "health_plan_id",
               "insurance_id"}
    case Banks =>
      name in {"account_number", "bank_account", "bank_account_number", "iban", "routing_number", "sort_code",
               "swift", "bic"}
    case Raw =>
      name in {"value", "values", "secret_value", "new_value", "old_value", "plaintext", "plain_text", "cleartext"}
    case Cards => false
  }

  function Known(name: string): Option<Handler> {
    if name == "mask:pii" then Some(MaskPii)
    else if name == "redact:secrets" then Some(Secrets)
    else if name == "redact:phi" then Some(Phi)
    else if name == "redact:card-numbers" then Some(Cards)
    else if name == "redact:bank-accounts" then Some(Banks)
    else if name == "redact:value" then Some(Raw)
    else None
  }

  type Arguments = map<string, Value>

  /** What one handler makes of one named argument. */
  function Treat(r: Reader, h: Handler, name: string, v: Value): Value {
    match h
    case MaskPii => if Field(h, r.lower(name)) && v.Text? then MARK else v
    case Secrets =>
      var w := if Field(h, r.lower(name)) then MARK else v;
      if w.Text? && r.secret(w.text) then MARK else w
    case Cards => if v.Text? then Text(Redaction.Redact(r.digit, Redaction.Luhn, false, v.text)) else v
    case _ => if Field(h, r.lower(name)) then MARK else v
  }

  function Treated(r: Reader, h: Handler, d: Arguments): Arguments {
    map name | name in d :: Treat(r, h, name, d[name])
  }

  /** `mask_pii`. */
  method MaskPiiFields(r: Reader, d: Arguments) returns (out: Arguments)
    ensures out == Treated(r, MaskPii, d)
  {
    hide Field;
    out := map[];
    var left := d.Keys;
    while left != {}
      invariant left <= d.Keys
      invariant out == map name | name in d && name !in left :: Treat(r, MaskPii, name, d[name])
      decreases left
    {
      var name :| name in left;
      if Field(MaskPii, r.lower(name)) && d[name].Text? {
        out := out[name := MARK];
      } else {
        out := out[name := d[name]];
      }
      left := left - {name};
    }
  }

  /** `_redact_by_field`. */
  method RedactByField(r: Reader, h: Handler, d: Arguments) returns (out: Arguments)
    ensures out == map name | name in d :: if Field(h, r.lower(name)) then MARK else d[name]
  {
    hide Field;
    out := map[];
    var left := d.Keys;
    while left != {}
      invariant left <= d.Keys
      invariant out == map name | name in d && name !in left :: if Field(h, r.lower(name)) then MARK else d[name]
      decreases left
    {
      var name :| name in left;
      if Field(h, r.lower(name)) {
        out := out[name := MARK];
      } else {
        out := out[name := d[name]];
      }
      left := left - {name};
    }
  }

  /** `redact_secrets`: by name, and then what is left of the values by what they look like. */
  method RedactSecrets(r: Reader, d: Arguments) returns (out: Arguments)
    ensures out == Treated(r, Secrets, d)
  {
    hide Field;
    out := RedactByField(r, Secrets, d);
    ghost var byName := out;
    var left := out.Keys;
    while left != {}
      invariant left <= out.Keys && out.Keys == d.Keys
      invariant forall name <- d :: out[name] == if name in left then byName[name] else Treat(r, Secrets, name, d[name])
      decreases left
    {
      var name :| name in left;
      left := left - {name};
      if out[name].Text? && r.secret(out[name].text) {
        out := out[name := MARK];
      }
    }
  }

  /** `redact_card_numbers`. */
  method RedactCards(r: Reader, d: Arguments) returns (out: Arguments)
    ensures out == Treated(r, Cards, d)
  {
    out := map[];
    var left := d.Keys;
    while left != {}
      invariant left <= d.Keys
      invariant out == map name | name in d && name !in left :: Treat(r, Cards, name, d[name])
      decreases left
    {
      var name :| name in left;
      if d[name].Text? {
        var text := Redaction.RedactText(r.digit, d[name].text);
        out := out[name := Text(text)];
      } else {
        out := out[name := d[name]];
      }
      left := left - {name};
    }
  }

  method Handle(r: Reader, h: Handler, d: Arguments) returns (out: Arguments)
    ensures out == Treated(r, h, d)
  {
    hide Field;
    match h {
      case MaskPii => out := MaskPiiFields(r, d);
      case Secrets => out := RedactSecrets(r, d);
      case Cards => out := RedactCards(r, d);
      case _ => out := RedactByField(r, h, d);
    }
  }

  // ---------------------------------------------------------------------------------------------
  // Obligations
  // ---------------------------------------------------------------------------------------------

  /** What a list of obligations makes of one named argument; an unknown one does nothing. */
  function TreatAll(r: Reader, obligations: seq<string>, name: string, v: Value): Value {
    if obligations == [] then v
    else
      var first := TreatAll(r, obligations[..|obligations| - 1], name, v);
      match Known(r.lower(r.trim(obligations[|obligations| - 1])))
      case Some(h) => Treat(r, h, name, first)
      case None => first
  }

  function AllTreated(r: Reader, obligations: seq<string>, d: Arguments): (out: Arguments)
    ensures out.Keys == d.Keys
  {
    map name | name in d :: TreatAll(r, obligations, name, d[name])
  }

  /** `apply_obligations`. */
  method ApplyObligations(r: Reader, d: Arguments, obligations: seq<string>) returns (out: Arguments)
    ensures out == AllTreated(r, obligations, d)
  {
    hide Treat, Known;
    out := d;
    for i := 0 to |obligations|
      invariant out == AllTreated(r, obligations[..i], d)
    {
      assert obligations[..i + 1][..i] == obligations[..i];
      var handler := Known(r.lower(r.trim(obligations[i])));
      if handler.Some? {
        out := Handle(r, handler.value, out);
      }
    }
    assert obligations[..|obligations|] == obligations;
  }

  // ---------------------------------------------------------------------------------------------
  // Calls
  // ---------------------------------------------------------------------------------------------

  datatype Kind = PositionalOnly | Either | VarPositional | KeywordOnly | VarKeyword

  datatype Parameter = Parameter(name: string, kind: Kind)

  type Signature = seq<Parameter>

  function Rank(k: Kind): nat {
    match k
    case PositionalOnly => 0
    case Either => 1
    case VarPositional => 2
    case KeywordOnly => 3
    case VarKeyword => 4
  }

  /** As Python lets a signature be: kinds in order, names distinct. */
  predicate Sound(sig: Signature) {
    forall i, j | 0 <= i < j < |sig| :: Rank(sig[i].kind) <= Rank(sig[j].kind) && sig[i].name != sig[j].name
  }

  predicate Has(sig: Signature, kind: Kind) {
    exists p <- sig :: p.kind == kind
  }

  /** How many parameters take a positional argument; they come first. */
  function Slots(sig: Signature): (n: nat)
    ensures n <= |sig|
    ensures forall i | 0 <= i < n :: Rank(sig[i].kind) <= 1
    ensures n < |sig| ==> Rank(sig[n].kind) > 1
  {
    if sig == [] || Rank(sig[0].kind) > 1 then 0 else 1 + Slots(sig[1..])
  }

  predicate ByKeyword(sig: Signature, name: string) {
    exists p <- sig :: p.name == name && (p.kind.Either? || p.kind.KeywordOnly?)
  }

  function Names(sig: Signature): (names: seq<string>)
    ensures |names| == |sig| && forall i | 0 <= i < |sig| :: names[i] == sig[i].name
  {
    seq(|sig|, i requires 0 <= i < |sig| => sig[i].name)
  }

  function Zip(names: seq<string>, values: seq<Value>): Arguments
    requires |names| == |values|
  {
    if names == [] then map[]
    else
      var n := |names| - 1;
      Zip(names[..n], values[..n])[names[n] := values[n]]
  }

  /** Whether so many positional arguments and these keywords bind. */
  predicate Binds(sig: Signature, count: nat, keywords: set<string>) {
    && (count <= Slots(sig) || Has(sig, VarPositional))
    && (forall i | 0 <= i < count && i < Slots(sig) :: !(sig[i].kind.Either? && sig[i].name in keywords))
    && (Has(sig, VarKeyword) || forall name <- keywords :: ByKeyword(sig, name))
  }

  function ByName(sig: Signature, kwargs: Arguments): Arguments {
    map name | name in kwargs && ByKeyword(sig, name) :: kwargs[name]
  }

  /** `bind_partial`: each argument to its parameter, or no binding. */
  function Bind(sig: Signature, args: seq<Value>, kwargs: Arguments): Option<Arguments> {
    var n := if |args| < Slots(sig) then |args| else Slots(sig);
    if !Binds(sig, |args|, kwargs.Keys) then None
    else Some(Zip(Names(sig)[..n], args[..n]) + ByName(sig, kwargs))
  }

  /** The leading parameters that are bound, up to `count`. */
  function Leading(sig: Signature, bound: set<string>, count: nat): (names: seq<string>)
    ensures |names| <= count && |names| <= |sig|
    ensures forall i | 0 <= i < |names| :: names[i] == sig[i].name
  {
    if count == 0 || sig == [] || sig[0].kind.VarPositional? || sig[0].kind.VarKeyword? || sig[0].name !in bound then []
    else [sig[0].name] + Leading(sig[1..], bound, count - 1)
  }

  function TreatEach(r: Reader, obligations: seq<string>, names: seq<string>, args: seq<Value>): (out: seq<Value>)
    requires |names| == |args|
    ensures |out| == |args|
    ensures forall i | 0 <= i < |args| :: out[i] == TreatAll(r, obligations, names[i], args[i])
  {
    seq(|args|, i requires 0 <= i < |args| => TreatAll(r, obligations, names[i], args[i]))
  }

  /** The positional arguments that the call delivers. */
  function Positional(r: Reader, sig: Option<Signature>, args: seq<Value>, kwargs: Arguments,
      obligations: seq<string>): seq<Value>
  {
    if obligations == [] || args == [] || sig.None? || Bind(sig.value, args, kwargs).None? then args
    else
      var names := Leading(sig.value, Bind(sig.value, args, kwargs).value.Keys, |args|);
      if |names| != |args| then args else TreatEach(r, obligations, names, args)
  }

  lemma {:induction false} ZipAt(names: seq<string>, values: seq<Value>, k: nat)
    requires |names| == |values| && k < |names|
    requires forall i, j | 0 <= i < j < |names| :: names[i] != names[j]
    ensures names[k] in Zip(names, values) && Zip(names, values)[names[k]] == values[k]
  {
    var n := |names| - 1;
    if k < n {
      ZipAt(names[..n], values[..n], k);
    }
  }

  lemma {:induction false} ZipKeys(names: seq<string>, values: seq<Value>)
    requires |names| == |values|
    ensures forall name :: name in Zip(names, values) <==> name in names
  {
    if names != [] {
      var n := |names| - 1;
      ZipKeys(names[..n], values[..n]);
      assert names == names[..n] + [names[n]];
    }
  }

  /**
   * `apply_obligations_to_call`: positional arguments are named, redacted as a mapping, and written
   * back by position; what cannot be named is left as it is.
   */
  method ApplyToCall(r: Reader, sig: Option<Signature>, args: seq<Value>, kwargs: Arguments, obligations: seq<string>)
    returns (args': seq<Value>, kwargs': Arguments)
    requires sig.Some? ==> Sound(sig.value)
    ensures args' == Positional(r, sig, args, kwargs, obligations)
    ensures kwargs' == AllTreated(r, obligations, kwargs)
  {
    hide TreatAll, Bind;
    kwargs' := ApplyObligations(r, kwargs, obligations);
    if obligations == [] || args == [] || sig.None? {
      return args, kwargs';
    }
    var bound := Bind(sig.value, args, kwargs);
    if bound.None? {
      return args, kwargs';
    }
    var names := PositionalNames(sig.value, bound.value.Keys, |args|);
    if |names| != |args| {
      return args, kwargs';
    }
    args' := RedactByPosition(r, names, args, obligations);
  }

  /** The arguments as a mapping, redacted, and back in their order. */
  method RedactByPosition(r: Reader, names: seq<string>, args: seq<Value>, obligations: seq<string>)
    returns (args': seq<Value>)
    requires |names| == |args| && forall i, j | 0 <= i < j < |names| :: names[i] != names[j]
    ensures args' == TreatEach(r, obligations, names, args)
  {
    hide TreatAll;
    var redacted := ApplyObligations(r, Zip(names, args), obligations);
    args' := [];
    for i := 0 to |args|
      invariant |args'| == i && forall j | 0 <= j < i :: args'[j] == TreatAll(r, obligations, names[j], args[j])
    {
      ZipAt(names, args, i);
      args' := args' + [redacted[names[i]]];
    }
  }

  predicate Stops(p: Parameter, bound: set<string>) {
    p.kind.VarPositional? || p.kind.VarKeyword? || p.name !in bound
  }

  /** The loop's result, from where it stopped. */
  lemma {:induction false} LeadingIs(sig: Signature, bound: set<string>, count: nat, n: nat)
    requires n <= count && n <= |sig| && forall j | 0 <= j < n :: !Stops(sig[j], bound)
    requires n == count || n == |sig| || Stops(sig[n], bound)
    ensures Leading(sig, bound, count) == Names(sig)[..n]
    decreases n
  {
    if n > 0 {
      LeadingIs(sig[1..], bound, count - 1, n - 1);
      assert !Stops(sig[0], bound) && Names(sig)[..n] == [sig[0].name] + Names(sig[1..])[..n - 1];
    }
  }

  method PositionalNames(sig: Signature, bound: set<string>, count: nat) returns (names: seq<string>)
    requires count > 0
    ensures names == Leading(sig, bound, count)
  {
    hide Leading, Stops;
    names := [];
    var i: nat := 0;
    while i < |sig|
      invariant i <= |sig| && i < count
      invariant names == Names(sig)[..i] && forall j | 0 <= j < i :: !Stops(sig[j], bound)
    {
      if Stops(sig[i], bound) {
        break;
      }
      names := names + [sig[i].name];
      i := i + 1;
      if |names| == count {
        break;
      }
    }
    LeadingIs(sig, bound, count, i);
  }

  // ---------------------------------------------------------------------------------------------
  // Positional and keyword spellings
  // ---------------------------------------------------------------------------------------------

  predicate Variadic(sig: Signature) {
    Has(sig, VarPositional) || Has(sig, VarKeyword)
  }

  /** Without variadics, each positional argument has a parameter of its own. */
  lemma BindFacts(sig: Signature, args: seq<Value>, kwargs: Arguments)
    requires Sound(sig) && !Variadic(sig) && Bind(sig, args, kwargs).Some?
    ensures |args| <= Slots(sig)
    ensures var bound := Bind(sig, args, kwargs).value.Keys;
      forall i | 0 <= i < |args| :: !Stops(sig[i], bound)
  {
    var names := Names(sig)[..|args|];
    ZipKeys(names, args);
    assert args[..|args|] == args;
    forall i | 0 <= i < |args|
      ensures !Stops(sig[i], Bind(sig, args, kwargs).value.Keys)
    {
      assert names[i] in names;
    }
  }

  lemma {:induction false} ZipOfTreated(r: Reader, obligations: seq<string>, names: seq<string>, values: seq<Value>)
    requires |names| == |values|
    ensures Zip(names, TreatEach(r, obligations, names, values)) == AllTreated(r, obligations, Zip(names, values))
  {
    hide TreatAll;
    if names != [] {
      var n := |names| - 1;
      ZipOfTreated(r, obligations, names[..n], values[..n]);
      assert TreatEach(r, obligations, names, values)[..n] == TreatEach(r, obligations, names[..n], values[..n]);
    }
  }

  /** What positional arguments are, when the call binds. */
  lemma PositionalIsEach(r: Reader, sig: Signature, args: seq<Value>, kwargs: Arguments, obligations: seq<string>)
    requires Sound(sig) && !Variadic(sig) && Bind(sig, args, kwargs).Some?
    ensures |args| <= Slots(sig)
    ensures Positional(r, Some(sig), args, kwargs, obligations)
      == TreatEach(r, obligations, Names(sig)[..|args|], args)
  {
    hide TreatAll, Bind, Stops, Leading;
    BindFacts(sig, args, kwargs);
    LeadingIs(sig, Bind(sig, args, kwargs).value.Keys, |args|, |args|);
    NothingToDo(r, obligations, Names(sig)[..|args|], args);
  }

  lemma NothingToDo(r: Reader, obligations: seq<string>, names: seq<string>, args: seq<Value>)
    requires |names| == |args|
    ensures obligations == [] || args == [] ==> TreatEach(r, obligations, names, args) == args
  {
  }

  /**
   * Redacting a call and then binding it is binding it and then redacting: no argument is added,
   * lost, or left out by the way it is spelled.
   */
  lemma RedactThenBind(r: Reader, sig: Signature, args: seq<Value>, kwargs: Arguments, obligations: seq<string>)
    requires Sound(sig) && !Variadic(sig) && Bind(sig, args, kwargs).Some?
    ensures var args' := Positional(r, Some(sig), args, kwargs, obligations);
      Bind(sig, args', AllTreated(r, obligations, kwargs))
      == Some(AllTreated(r, obligations, Bind(sig, args, kwargs).value))
  {
    hide TreatAll, Positional, Zip, Binds, ByName;
    PositionalIsEach(r, sig, args, kwargs, obligations);
    var names := Names(sig)[..|args|];
    var args' := Positional(r, Some(sig), args, kwargs, obligations);
    ZipOfTreated(r, obligations, names, args);
    assert args[..|args|] == args && args'[..|args'|] == args';
    SumOfTreated(r, obligations, Zip(names, args), ByName(sig, kwargs));
    ByNameOfTreated(r, sig, obligations, kwargs);
  }

  lemma SumOfTreated(r: Reader, obligations: seq<string>, a: Arguments, b: Arguments)
    ensures AllTreated(r, obligations, a + b) == AllTreated(r, obligations, a) + AllTreated(r, obligations, b)
  {
    hide TreatAll;
  }

  lemma ByNameOfTreated(r: Reader, sig: Signature, obligations: seq<string>, kwargs: Arguments)
    ensures ByName(sig, AllTreated(r, obligations, kwargs)) == AllTreated(r, obligations, ByName(sig, kwargs))
  {
    hide TreatAll, ByKeyword;
  }

  /** Two spellings of one call deliver identical arguments. */
  lemma SpellingsAgree(r: Reader, sig: Signature, args1: seq<Value>, kwargs1: Arguments, args2: seq<Value>,
      kwargs2: Arguments, obligations: seq<string>)
    requires Sound(sig) && !Variadic(sig)
    requires Bind(sig, args1, kwargs1).Some? && Bind(sig, args1, kwargs1) == Bind(sig, args2, kwargs2)
    ensures Bind(sig, Positional(r, Some(sig), args1, kwargs1, obligations), AllTreated(r, obligations, kwargs1))
      == Bind(sig, Positional(r, Some(sig), args2, kwargs2, obligations), AllTreated(r, obligations, kwargs2))
  {
    hide TreatAll, Bind, Positional;
    RedactThenBind(r, sig, args1, kwargs1, obligations);
    RedactThenBind(r, sig, args2, kwargs2, obligations);
  }
}
