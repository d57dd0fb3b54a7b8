/** Schema names: the rule for new ones, the safety floor for stored ones, and quoting. */
module SchemaNames {
  import opened Text

  datatype Checked = Ok(value: string) | Required | TooLong | BadName

  const SCHEMA_NAME_MAX := 63

  function Fold(s: string): (r: string)
    ensures |r| == |s| && forall i :: 0 <= i < |s| ==> r[i] == if s[i] == '-' then '_' else s[i]
  {
    seq(|s|, i requires 0 <= i < |s| => if s[i] == '-' then '_' else s[i])
  }

  function NormalizeSchema(v: string): string {
    Fold(Lower(Strip(v)))
  }

  predicate IsNameChar(c: char) {
    'a' <= c <= 'z' || '0' <= c <= '9' || c == '_'
  }

  /** The shape of a new name. */
  predicate IsName(s: string) {
    && 1 <= |s| <= 63 && !StartsWith(s, "pg_") && s[0] != '_'
    && forall i :: 0 <= i < |s| ==> IsNameChar(s[i])
  }

  function ValidateSchemaName(v: string): Checked {
    var name := NormalizeSchema(v);
    if name == "" then Required
    else if |name| > SCHEMA_NAME_MAX then TooLong
    else if IsName(name) then Ok(name)
    else BadName
  }

  predicate Unsafe(c: char) {
    c < ' ' || c == '"' || c == '\''
  }

  predicate IsSafe(s: string) {
    1 <= |s| <= SCHEMA_NAME_MAX && forall i :: 0 <= i < |s| ==> !Unsafe(s[i])
  }

  datatype Quoted = Sql(text: string) | Refused

  function QuoteSchema(name: string): Quoted {
    if IsSafe(name) then Sql("\"" + name + "\"") else Refused
  }

  /** Which inputs are accepted, and why the others are not. */
  lemma SchemaNameIff(v: string, n: string)
    ensures ValidateSchemaName(v) == Ok(n) <==>
              && n == Fold(Lower(Strip(v))) && 1 <= |n| <= 63 && (|n| >= 3 ==> n[..3] != "pg_")
              && ('a' <= n[0] <= 'z' || '0' <= n[0] <= '9')
              && forall i :: 0 <= i < |n| ==> 'a' <= n[i] <= 'z' || '0' <= n[i] <= '9' || n[i] == '_'
    ensures ValidateSchemaName(v) == Required <==> Strip(v) == ""
    ensures ValidateSchemaName(v) == TooLong <==> |Strip(v)| > 63
  {
  }

  /** Quoting adds the quotes and nothing else, and refuses what could break out of them. */
  lemma QuoteIff(name: string)
    ensures QuoteSchema(name) ==
              if 1 <= |name| <= 63 && (forall i :: 0 <= i < |name| ==>
                                       name[i] as int >= 32 && name[i] != '"' && name[i] != '\'')
              then Sql("\"" + name + "\"") else Refused
  {
  }

  /** An accepted name is the normal form of the input, is accepted again unchanged, and may be put into SQL. */
  lemma SchemaNameAccepted(v: string)
    requires ValidateSchemaName(v).Ok?
    ensures var n := ValidateSchemaName(v).value;
            && n == NormalizeSchema(v) && NormalizeSchema(n) == n && ValidateSchemaName(n) == Ok(n)
            && QuoteSchema(n).Sql?
  {
    var n := ValidateSchemaName(v).value;
    StripSpec(n);
    LowerFixed(n);
    assert Fold(n) == n;
  }

  /** How SQL reads a quoted identifier after its opening quote: a doubled quote stands for one, a single one closes. */
  datatype Read = Read(name: string, rest: string) | Unterminated

  function ReadQuoted(s: string): Read {
    if s == "" then Unterminated
    else if s[0] != '"' then
      var r := ReadQuoted(s[1..]);
      if r.Read? then Read([s[0]] + r.name, r.rest) else r
    else if |s| > 1 && s[1] == '"' then
      var r := ReadQuoted(s[2..]);
      if r.Read? then Read("\"" + r.name, r.rest) else r
    else Read("", s[1..])
  }

  /** Whatever follows the quoted text in the statement, the reader sees the name and stops at the closing quote. */
  lemma {:induction false} ReadBack(name: string, rest: string)
    requires (forall i :: 0 <= i < |name| ==> name[i] != '"') && (rest == "" || rest[0] != '"')
    ensures ReadQuoted(name + "\"" + rest) == Read(name, rest)
  {
    var s := name + "\"" + rest;
    if name == "" {
      assert s[1..] == rest;
    } else {
      assert s[1..] == name[1..] + "\"" + rest;
      ReadBack(name[1..], rest);
      assert [name[0]] + name[1..] == name;
    }
  }

  /** A quoted schema name cannot end early or swallow the statement after it. */
  lemma QuoteRoundTrip(name: string, rest: string)
    requires QuoteSchema(name).Sql? && (rest == "" || rest[0] != '"')
    ensures var t := QuoteSchema(name).text + rest;
            t[0] == '"' && ReadQuoted(t[1..]) == Read(name, rest)
  {
    ReadBack(name, rest);
    assert (QuoteSchema(name).text + rest)[1..] == name + "\"" + rest;
  }
}
