/** The enhanced profile the gateway computes from a fetched user record:
    the user's fields spread into a new object, followed by five derived fields. */
module Profile {
  import opened Wrappers
  import opened Json
  import Text

  /** The `TypeError`s a handler can raise itself, after the upstream call succeeded. */
  datatype Fault =
    | BodyNullish     // `response.data.data` with `response.data === null`
    | UserNullish     // `user.name` with `user` null or undefined
    | NameNotString   // `user.name.toUpperCase()` where `user.name` is not a string
    | EmailNotString  // `user.email.split('@')` where `user.email` is not a string
  | IdNotConvertible  // `${user.id}` where `String(user.id)` throws

  /** The field names the profile literal writes after the spread. */
  const DerivedKeys: set<string> := {"displayName", "emailDomain", "isAdmin", "profileUrl", "timestamp"}

  /** `email.split('@')[1]`: the second '@'-separated segment, `undefined` when
      there is no '@'. */
  function EmailDomain(email: string): (r: Option<string>)
    ensures r.Some? ==> '@' !in r.value
  {
    var parts := Text.Split(email, '@');
    if |parts| >= 2 then Some(parts[1]) else None
  }

  /** The domain is undefined exactly when the address has no '@'. */
  lemma EmailDomainAbsent(email: string)
    ensures EmailDomain(email).None? <==> '@' !in email
  {
    Text.SplitCount(email, '@');
  }

  /** Reading the address as `a@d` followed by nothing or by a further '@...':
      the domain is `d`, the text between the first and the second '@'. */
  lemma EmailDomainSegment(a: string, d: string, rest: string)
    requires '@' !in a && '@' !in d
    requires rest == [] || rest[0] == '@'
    ensures EmailDomain(a + ['@'] + d + rest) == Some(d)
  {
    var u := d + rest;
    Text.SplitAtFirst(a, u, '@');
    assert a + ['@'] + d + rest == a + ['@'] + u;
    Text.SplitPrefix(d, rest, '@');
    if rest == [] {
      assert Text.Split(rest, '@') == [""];
      assert d + rest == d && d + "" == d;
    } else {
      assert rest == ['@'] + rest[1..];
      assert Text.Split(rest, '@') == [""] + Text.Split(rest[1..], '@');
      assert d + "" == d;
    }
  }

  /** Conversely, a defined domain is the text that follows the first '@' up to
      the next '@' or the end of the address. */
  lemma EmailDomainShape(email: string, d: string)
    requires EmailDomain(email) == Some(d)
    ensures '@' !in d
    ensures exists i :: 0 <= i && i + 1 + |d| <= |email| && email[i] == '@' && '@' !in email[..i]
                        && email[i + 1..i + 1 + |d|] == d
                        && (i + 1 + |d| == |email| || email[i + 1 + |d|] == '@')
  {
    var parts := Text.Split(email, '@');
    Text.SplitJoin(email, '@');
    var a, tail := parts[0], Text.Join(parts[1..], '@');
    assert email == a + ['@'] + tail;
    var rest: string := if |parts| == 2 then [] else ['@'] + Text.Join(parts[2..], '@');
    assert parts[1..][1..] == parts[2..];
    assert tail == d + rest;
    var i := |a|;
    assert email == a + ['@'] + d + rest;
    assert email[..i] == a;
    assert email[i] == '@';
    assert email[i + 1..i + 1 + |d|] == d;
    assert |email| == i + 1 + |d| + |rest|;
    if rest != [] {
      assert email[i + 1 + |d|] == rest[0] == '@';
    }
  }

  /** Writes a property whose value may be `undefined`; an undefined property is
      dropped from the serialized object, overriding a spread field of that name. */
  function Put(m: map<string, Json>, key: string, v: Option<Json>): map<string, Json>
  {
    match v
    case Some(x) => m[key := x]
    case None => m - {key}
  }

  /** The profile object literal once the throwing reads and the conversion of
      the id have succeeded:
      `{...user, displayName, emailDomain, isAdmin, profileUrl, timestamp}`. */
  function Enrich(fields: map<string, Json>, name: string, email: string,
                  role: Option<Json>, idText: string, clock: string): map<string, Json>
  {
    var domain := match EmailDomain(email) case Some(d) => Some(JStr(d)) case None => None;
    var p := fields["displayName" := JStr(Text.Upper(name))];
    var p := Put(p, "emailDomain", domain);
    var p := p["isAdmin" := JBool(role == Some(JStr("admin")))];
    var p := p["profileUrl" := JStr("/api/users/" + idText + "/profile")];
    p["timestamp" := JStr(clock)]
  }

  /** `v` is an object whose field `key` is a string. */
  predicate HasString(v: Json, key: string)
  {
    v.JObj? && key in v.fields && v.fields[key].JStr?
  }

  /** The user record has a string `name` and a string `email`, and its `id`, if
      it has one, converts to a string. */
  predicate Derivable(user: Option<Json>)
  {
    && !Nullish(user)
    && HasString(user.value, "name") && HasString(user.value, "email")
    && ("id" in user.value.fields ==> Convertible(user.value.fields["id"]))
  }

  /** The profile for `user`, or the `TypeError` its evaluation throws.
      `clock` is the `new Date().toISOString()` text, taken as an input. */
  function Derive(user: Option<Json>, clock: string): (r: Result<map<string, Json>, Fault>)
    // it throws exactly when `name` or `email` is not a string or the id does not
    // convert, in the order the literal evaluates them
    ensures r.Success? <==> Derivable(user)
    ensures r.Failure? ==>
      r.error == if Nullish(user) then UserNullish
                 else if !HasString(user.value, "name") then NameNotString
                 else if !HasString(user.value, "email") then EmailNotString
                 else IdNotConvertible
    // every user field is kept unchanged unless a derived field of that name replaces it
    ensures r.Success? ==>
      forall k :: k in user.value.fields && k !in DerivedKeys ==> k in r.value && r.value[k] == user.value.fields[k]
    ensures r.Success? ==>
      r.value.Keys == user.value.fields.Keys + DerivedKeys
                      - if '@' in user.value.fields["email"].s then {} else {"emailDomain"}
    // the derived fields
    ensures r.Success? ==> var m, p := user.value.fields, r.value;
      && "displayName" in p && p["displayName"] == JStr(Text.Upper(m["name"].s))
      && ("emailDomain" in p <==> '@' in m["email"].s)
      && (forall d :: EmailDomain(m["email"].s) == Some(d) ==> "emailDomain" in p && p["emailDomain"] == JStr(d))
      && "isAdmin" in p && p["isAdmin"] == JBool("role" in m && m["role"] == JStr("admin"))
      && "profileUrl" in p
      && p["profileUrl"] == JStr("/api/users/" + OptionText(Get(user.value, "id")).value + "/profile")
      && "timestamp" in p && p["timestamp"] == JStr(clock)
  {
    if Nullish(user) then Failure(UserNullish)
    else
      var v := user.value;
      var name := Get(v, "name");
      if !(name.Some? && name.value.JStr?) then Failure(NameNotString)
      else
        var email := Get(v, "email");
        if !(email.Some? && email.value.JStr?) then Failure(EmailNotString)
        else
          match OptionText(Get(v, "id"))
          case None => Failure(IdNotConvertible)
          case Some(idText) =>
            EmailDomainAbsent(email.value.s);
            Success(Enrich(v.fields, name.value.s, email.value.s, Get(v, "role"), idText, clock))
  }
}
