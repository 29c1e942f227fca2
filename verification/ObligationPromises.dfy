// What each obligation promises about an argument, wherever it stands among others
// (src/deepintshield/agentic/obligations.py).

module ObligationPromises {
  import opened Common
  import opened Obligations
  import Redaction

  /** The names of the arguments that an obligation is about. */
  function Listed(obligation: string): set<string> {
    if obligation == "mask:pii" then {"email", "phone", "ssn", "credit_card", "tax_id", "address"}
    else if obligation == "redact:secrets" then
      {"api_key", "apikey", "access_key", "secret", "client_secret", "password", "passwd", "token", "access_token",
       "refresh_token", "private_key", "credential", "credentials", "authorization", "auth", "session_key"}
    else if obligation == "redact:phi" then
      {"diagnosis", "diagnoses", "icd", "icd10", "icd_code", "mrn", "medical_record_number", "patient_id",
       "patient_name", "treatment", "medication", "prescription", "lab_result", "health_plan_id", "insurance_id"}
    else if obligation == "redact:bank-accounts" then
      {"account_number", "bank_account", "bank_account_number", "iban", "routing_number", "sort_code", "swift", "bic"}
    else if obligation == "redact:value" then
      {"value", "values", "secret_value", "new_value", "old_value", "plaintext", "plain_text", "cleartext"}
    else {}
  }

  predicate Carried(obligation: string) {
    || obligation == "mask:pii" || obligation == "redact:secrets" || obligation == "redact:phi"
    || obligation == "redact:card-numbers" || obligation == "redact:bank-accounts" || obligation == "redact:value"
  }

  /** How an obligation is read. */
  function Read(r: Reader, obligation: string): string {
    r.lower(r.trim(obligation))
  }

  lemma HandlerOf(obligation: string)
    ensures Known(obligation).Some? <==> Carried(obligation)
    ensures Known(obligation) == Some(MaskPii) <==> obligation == "mask:pii"
    ensures Known(obligation) == Some(Secrets) <==> obligation == "redact:secrets"
    ensures Known(obligation) == Some(Cards) <==> obligation == "redact:card-numbers"
  {
  }

  lemma FieldsOf(obligation: string, name: string)
    requires Carried(obligation)
    ensures Field(Known(obligation).value, name) <==> name in Listed(obligation)
  {
  }

  /** The obligation concerns this argument by its name; personal data only where it is a text. */
  predicate Concerns(r: Reader, obligation: string, name: string, v: Value) {
    r.lower(name) in Listed(obligation) && (obligation == "mask:pii" ==> v.Text?)
  }

  /** What one obligation makes of one argument. */
  lemma OneTreats(r: Reader, obligation: string, name: string, v: Value)
    requires Carried(obligation)
    ensures var w := Treat(r, Known(obligation).value, name, v);
      && (Concerns(r, obligation, name, v) ==> w == Text("***"))
      && (!Concerns(r, obligation, name, v) ==>
        if obligation == "redact:secrets" && v.Text? && r.secret(v.text) then w == Text("***")
        else if obligation == "redact:card-numbers" && v.Text?
        then w == Text(Redaction.Redact(r.digit, Redaction.Luhn, false, v.text))
        else w == v)
      && (v.Text? ==> w.Text?)
  {
    HandlerOf(obligation);
    FieldsOf(obligation, r.lower(name));
    hide Field, Listed;
  }

  lemma MarkStays(r: Reader, h: Handler, name: string)
    requires Redaction.Proper(r.digit)
    ensures Treat(r, h, name, Text("***")) == Text("***")
  {
    hide Field;
    if h.Cards? {
      Redaction.Marked(r.digit, Redaction.Luhn, false, "");
      assert Redaction.REDACTED + "" == "***";
    }
  }

  /** The last of a list of obligations acts on what those before it leave. */
  lemma LastTreats(r: Reader, obligations: seq<string>, name: string, v: Value)
    requires obligations != []
    ensures var n := |obligations| - 1;
      var before := TreatAll(r, obligations[..n], name, v);
      var last := Read(r, obligations[n]);
      TreatAll(r, obligations, name, v) == if Carried(last) then Treat(r, Known(last).value, name, before) else before
  {
    HandlerOf(Read(r, obligations[|obligations| - 1]));
    hide Treat, Known, Carried;
  }

  lemma {:induction false} TextStays(r: Reader, obligations: seq<string>, name: string, v: Value)
    requires v.Text?
    ensures TreatAll(r, obligations, name, v).Text?
  {
    if obligations != [] {
      hide Treat, Known, Carried;
      LastTreats(r, obligations, name, v);
      TextStays(r, obligations[..|obligations| - 1], name, v);
      var last := Read(r, obligations[|obligations| - 1]);
      if Carried(last) {
        OneTreats(r, last, name, TreatAll(r, obligations[..|obligations| - 1], name, v));
      }
    }
  }

  /** An argument that some obligation names is the mark in the end, whatever the others are. */
  lemma {:induction false} NamedIsMarked(r: Reader, obligations: seq<string>, k: nat, name: string, v: Value)
    requires Redaction.Proper(r.digit) && k < |obligations| && Concerns(r, Read(r, obligations[k]), name, v)
    ensures TreatAll(r, obligations, name, v) == Text("***")
    decreases |obligations|
  {
    hide Treat, Known, Listed;
    var n := |obligations| - 1;
    var last := Read(r, obligations[n]);
    var before := TreatAll(r, obligations[..n], name, v);
    LastTreats(r, obligations, name, v);
    HandlerOf(last);
    if k < n {
      NamedIsMarked(r, obligations[..n], k, name, v);
      if Carried(last) {
        MarkStays(r, Known(last).value, name);
      }
    } else {
      ListedIsCarried(last, r.lower(name));
      if v.Text? {
        TextStays(r, obligations[..n], name, v);
      }
      OneTreats(r, last, name, before);
    }
  }

  lemma ListedIsCarried(obligation: string, name: string)
    requires name in Listed(obligation)
    ensures Carried(obligation)
  {
  }

  /** After the obligation about card numbers no text has a valid one, whatever comes before and after it. */
  lemma {:induction false} CardsAreGone(r: Reader, obligations: seq<string>, k: nat, name: string, v: Value)
    requires Redaction.Proper(r.digit) && k < |obligations| && Read(r, obligations[k]) == "redact:card-numbers"
    ensures var w := TreatAll(r, obligations, name, v);
      w.Text? ==> Redaction.Redact(r.digit, Redaction.Luhn, false, w.text) == w.text
    decreases |obligations|
  {
    hide Treat, Known, Listed, Redaction.Redact, Redaction.Luhn;
    var n := |obligations| - 1;
    var last := Read(r, obligations[n]);
    var before := TreatAll(r, obligations[..n], name, v);
    LastTreats(r, obligations, name, v);
    MarkIsFixed(r);
    if Carried(last) {
      OneTreats(r, last, name, before);
      if before.Text? {
        Redaction.RedactTwice(r.digit, Redaction.Luhn, false, false, before.text);
      }
    }
    if k < n {
      CardsAreGone(r, obligations[..n], k, name, v);
    }
  }

  lemma MarkIsFixed(r: Reader)
    requires Redaction.Proper(r.digit)
    ensures Redaction.Redact(r.digit, Redaction.Luhn, false, "***") == "***"
  {
    Redaction.Marked(r.digit, Redaction.Luhn, false, "");
    assert Redaction.REDACTED + "" == "***";
  }

  /** After the obligation about secrets no text looks like one, unless card numbers are taken out of it later. */
  lemma {:induction false} SecretsAreGone(r: Reader, obligations: seq<string>, k: nat, name: string, v: Value)
    requires Redaction.Proper(r.digit) && k < |obligations| && Read(r, obligations[k]) == "redact:secrets"
    requires forall j | k < j < |obligations| :: Read(r, obligations[j]) != "redact:card-numbers"
    ensures var w := TreatAll(r, obligations, name, v); w.Text? && w.text != "***" ==> !r.secret(w.text)
    decreases |obligations|
  {
    hide Treat, Known, Listed;
    var n := |obligations| - 1;
    var last := Read(r, obligations[n]);
    LastTreats(r, obligations, name, v);
    if Carried(last) {
      OneTreats(r, last, name, TreatAll(r, obligations[..n], name, v));
    }
    if k < n {
      SecretsAreGone(r, obligations[..n], k, name, v);
    }
  }

  /** The obligation has nothing to do with the argument. */
  predicate Leaves(r: Reader, obligation: string, name: string, v: Value) {
    && !Concerns(r, obligation, name, v)
    && (obligation == "redact:secrets" && v.Text? ==> !r.secret(v.text))
    && (obligation == "redact:card-numbers" && v.Text? ==>
      Redaction.Redact(r.digit, Redaction.Luhn, false, v.text) == v.text)
  }

  /** An argument that no obligation has to do with is delivered as it is. */
  lemma {:induction false} OthersAreLeft(r: Reader, obligations: seq<string>, name: string, v: Value)
    requires forall o <- obligations :: Leaves(r, Read(r, o), name, v)
    ensures TreatAll(r, obligations, name, v) == v
  {
    if obligations != [] {
      hide Treat, Known, Listed, Redaction.Redact, Redaction.Luhn;
      var n := |obligations| - 1;
      assert forall o <- obligations[..n] :: o in obligations;
      OthersAreLeft(r, obligations[..n], name, v);
      LastTreats(r, obligations, name, v);
      assert Leaves(r, Read(r, obligations[n]), name, v);
      if Carried(Read(r, obligations[n])) {
        OneTreats(r, Read(r, obligations[n]), name, v);
      }
    }
  }
}
