/** The configuration object both utility objects work with: a flat map from
    field name to string value (config.json, or the environment bundle), the
    `validateConfig` filter, the `{...current, ...updates}` merge and the
    weekend test. */
module Config {
  import opened Js

  type Config = map<string, string>

  const AccessToken := "AccessToken"
  const RefreshToken := "RefreshToken"
  const Amount := "Amount"
  const MoneycardId := "MoneycardId"

  /** The fields the token refresh needs. */
  const RefreshFields: seq<string> := [RefreshToken]
  /** The fields the credit load needs. */
  const CreditFields: seq<string> := [AccessToken, RefreshToken, Amount, MoneycardId]

  const MissingFieldsPrefix := "Missing required configuration fields: "

  /** `!config[field] || config[field].trim() === ''`: the field is absent,
      empty, or whitespace only. */
  predicate IsMissing(config: Config, field: string) {
    field !in config || IsBlank(config[field])
  }

  /** `requiredFields.filter(...)`: the required fields that are missing, in
      the order they are required. */
  function MissingFields(config: Config, required: seq<string>): (r: seq<string>)
    ensures |r| <= |required|
    ensures forall i :: 0 <= i < |r| ==> r[i] in required && IsMissing(config, r[i])
  {
    if required == [] then []
    else
      var head := if IsMissing(config, required[0]) then [required[0]] else [];
      head + MissingFields(config, required[1..])
  }

  /** A field is reported missing iff it is required and missing. */
  lemma {:induction false} MissingFieldsMembers(config: Config, required: seq<string>, f: string)
    ensures f in MissingFields(config, required) <==> f in required && IsMissing(config, f)
  {
    if required != [] {
      MissingFieldsMembers(config, required[1..], f);
      assert required == [required[0]] + required[1..];
    }
  }

  /** The filter distributes over concatenation, so the missing fields keep
      the order of `requiredFields`. */
  lemma {:induction false} MissingFieldsAppend(config: Config, a: seq<string>, b: seq<string>)
    ensures MissingFields(config, a + b) == MissingFields(config, a) + MissingFields(config, b)
  {
    if a == [] {
      assert a + b == b;
    } else {
      var head := if IsMissing(config, a[0]) then [a[0]] else [];
      assert (a + b)[0] == a[0] && (a + b)[1..] == a[1..] + b;
      assert MissingFields(config, a + b) == head + MissingFields(config, a[1..] + b);
      MissingFieldsAppend(config, a[1..], b);
      assert MissingFields(config, a) == head + MissingFields(config, a[1..]);
    }
  }

  /** `validateConfig(config, requiredFields)`: passes iff no required field
      is missing, and otherwise throws an error naming every missing field. */
  function ValidateConfig(config: Config, required: seq<string>): (r: Outcome<string>)
    ensures r.Pass? <==> forall f :: f in required ==> !IsMissing(config, f)
    ensures r.Fail? ==> r.error == MissingFieldsPrefix + Join(MissingFields(config, required), ", ")
  {
    var missing := MissingFields(config, required);
    assert |missing| == 0 ==> forall f :: f in required ==> !IsMissing(config, f) by {
      forall f | f in required ensures |missing| == 0 ==> !IsMissing(config, f) {
        MissingFieldsMembers(config, required, f);
      }
    }
    if |missing| > 0 then Fail(MissingFieldsPrefix + Join(missing, ", ")) else Pass
  }

  /** A field that passes the check is defined and truthy. */
  lemma PresentIsTruthy(config: Config, field: string)
    requires !IsMissing(config, field)
    ensures TruthyAt(config, field)
  {
    assert config[field] != "" by {
      if config[field] == "" {
        assert IsBlank(config[field]);
      }
    }
  }

  /** The credit check passes iff each of the four fields is present and
      not blank. */
  lemma CreditFieldsCheck(config: Config)
    ensures ValidateConfig(config, CreditFields).Pass? <==>
      !IsMissing(config, AccessToken) && !IsMissing(config, RefreshToken)
      && !IsMissing(config, Amount) && !IsMissing(config, MoneycardId)
  {
    assert CreditFields[0] == AccessToken && CreditFields[1] == RefreshToken;
    assert CreditFields[2] == Amount && CreditFields[3] == MoneycardId;
  }

  /** `{ ...current, ...updates }`: the keys of both; an update key takes its
      new value, every other key keeps its old one. */
  function Merge(current: Config, updates: Config): (r: Config)
    ensures r.Keys == current.Keys + updates.Keys
    ensures forall k :: k in updates ==> r[k] == updates[k]
    ensures forall k :: k in current && k !in updates ==> r[k] == current[k]
  {
    current + updates
  }

  /** `getDay()` is 5 (Friday) or 6 (Saturday). */
  predicate IsWeekend(dayOfWeek: int) {
    dayOfWeek == 5 || dayOfWeek == 6
  }

  /** Of the seven values `getDay()` returns, exactly Friday and Saturday
      are the weekend; Sunday to Thursday are working days. */
  lemma WeekendDays()
    ensures (set day | 0 <= day < 7 && IsWeekend(day)) == {5, 6}
    ensures forall day :: 0 <= day <= 4 ==> !IsWeekend(day)
  {
    var weekend := set day | 0 <= day < 7 && IsWeekend(day);
    assert 5 in weekend && 6 in weekend;
  }
}
