/** The gateway's documented example exchanges, stated over the model. */
module Scenarios {
  import opened Wrappers
  import opened Json
  import opened Profile
  import opened Gateway
  import Text

  /** The user record the data service holds under id 1. */
  function JohnDoe(): Json
  {
    JObj(map["id" := JNum(1), "name" := JStr("John Doe"), "email" := JStr("john@example.com"),
             "role" := JStr("admin")])
  }

  /** `{success: true, data: <data>}`, the data service's success envelope. */
  function UpstreamOk(data: Json): Json
  {
    JObj(map["success" := JBool(true), "data" := data])
  }

  /** The sample record has the string name and address the profile needs. */
  lemma JohnDoeDerivable()
    ensures Derivable(Some(JohnDoe()))
    ensures JohnDoe().fields["name"] == JStr("John Doe")
    ensures JohnDoe().fields["email"] == JStr("john@example.com")
  {
  }

  /** The profile of user 1 carries exactly the user's fields and the five derived ones. */
  lemma JohnDoeProfileKeys(clock: string)
    ensures Derive(Some(JohnDoe()), clock).Success?
    ensures Derive(Some(JohnDoe()), clock).value.Keys == JohnDoe().fields.Keys + DerivedKeys
  {
    JohnDoeDerivable();
    assert "john@example.com"[4] == '@';
  }

  /** Its display name and mail domain. */
  lemma JohnDoeProfileTexts(clock: string)
    ensures Derive(Some(JohnDoe()), clock).Success?
    ensures Derive(Some(JohnDoe()), clock).value["displayName"] == JStr("JOHN DOE")
    ensures Derive(Some(JohnDoe()), clock).value["emailDomain"] == JStr("example.com")
  {
    JohnDoeDerivable();
    JohnDoeDisplayName();
    JohnDoeEmailDomain();
  }

  /** Its admin flag and timestamp. */
  lemma JohnDoeProfileFlags(clock: string)
    ensures Derive(Some(JohnDoe()), clock).Success?
    ensures Derive(Some(JohnDoe()), clock).value["isAdmin"] == JBool(true)
    ensures Derive(Some(JohnDoe()), clock).value["timestamp"] == JStr(clock)
  {
    JohnDoeDerivable();
  }

  /** Its profile path, built from the numeric id. */
  lemma JohnDoeProfileUrl(clock: string)
    ensures Derive(Some(JohnDoe()), clock).Success?
    ensures Derive(Some(JohnDoe()), clock).value["profileUrl"] == JStr("/api/users/1/profile")
  {
    JohnDoeDerivable();
    var id := Get(JohnDoe(), "id");
    assert id == Some(JNum(1));
    assert OptionText(id) == Some(Text.IntText(1)) && Text.IntText(1) == "1";
    assert "/api/users/" + "1" + "/profile" == "/api/users/1/profile";
  }

  /** The user's own fields are kept. */
  lemma JohnDoeProfileKeepsFields(clock: string)
    ensures Derive(Some(JohnDoe()), clock).Success?
    ensures Derive(Some(JohnDoe()), clock).value["name"] == JStr("John Doe")
    ensures Derive(Some(JohnDoe()), clock).value["id"] == JNum(1)
  {
    JohnDoeDerivable();
    var m := JohnDoe().fields;
    assert "id" in m && m["id"] == JNum(1);
    assert "name" !in DerivedKeys;
    assert "id" !in DerivedKeys;
  }

  /** The sample record's name, upper-cased. */
  lemma JohnDoeDisplayName()
    ensures Text.Upper("John Doe") == "JOHN DOE"
  {
  }

  /** The sample record's mail domain. */
  lemma JohnDoeEmailDomain()
    ensures EmailDomain("john@example.com") == Some("example.com")
  {
    EmailDomainSegment("john", "example.com", "");
    assert "john" + ['@'] + "example.com" + "" == "john@example.com";
  }

  /** Fetching the profile of user 1 answers 200 with the derived profile. */
  lemma JohnDoeProfile(clock: string)
    ensures var r := Respond(UserProfile("1"), Ok(UpstreamOk(JohnDoe())), clock);
      && r.status == 200 && r.envelope.success
      && r.envelope.data == Some(JObj(Derive(Some(JohnDoe()), clock).value))
  {
    assert DataField(UpstreamOk(JohnDoe())) == Success(Some(JohnDoe()));
    JohnDoeDerivable();
  }

  /** A 404 from the data service for user 9999 reaches the client unchanged on
      both the plain and the profile route. */
  lemma NotFoundPassesThrough(message: string, clock: string)
    ensures Respond(GetUser("9999"), HttpErr(404, message), clock).status == 404
    ensures !Respond(GetUser("9999"), HttpErr(404, message), clock).envelope.success
    ensures Respond(UserProfile("9999"), HttpErr(404, message), clock).status == 404
    ensures !Respond(UserProfile("9999"), HttpErr(404, message), clock).envelope.success
  {
    HttpErrorPassesThrough(GetUser("9999"), 404, message, clock);
    HttpErrorPassesThrough(UserProfile("9999"), 404, message, clock);
  }

  /** The list route passes the upstream list through as `data`. */
  lemma ListUsersPassesData(clock: string)
    ensures Respond(ListUsers, Ok(UpstreamOk(JArr([JohnDoe()]))), clock) ==
      Response(200, Envelope(true, Some(JArr([JohnDoe()])), "Users retrieved from data service", None))
  {
  }

  /** A POST answered with the created user answers 201 with that user. */
  lemma CreateUserAnswers201(created: Json, clock: string)
    ensures Respond(CreateUser(Some(created)), Ok(UpstreamOk(created)), clock) ==
      Response(201, Envelope(true, Some(created), "User created via data service", None))
  {
  }

  /** A profile whose user has no mail domain: an address without '@' leaves
      `emailDomain` out, even if the user record carries one. */
  lemma ProfileWithoutDomain(clock: string)
    ensures var user := JObj(map["id" := JNum(2), "name" := JStr("x"), "email" := JStr("nobody"),
                                 "emailDomain" := JStr("stale")]);
      Derive(Some(user), clock).Success? && "emailDomain" !in Derive(Some(user), clock).value
  {
    EmailDomainAbsent("nobody");
  }

  /** A user record without a string name makes the profile route answer 500
      even though the upstream call succeeded. */
  lemma ProfileOfNamelessUserIs500(clock: string)
    ensures var body := UpstreamOk(JObj(map["email" := JStr("a@b")]));
      Respond(UserProfile("3"), Ok(body), clock) ==
        Response(500, Envelope(false, None, "Failed to generate user profile", Some(Local(NameNotString))))
  {
  }

  /** A user whose id is an object with its own `toString` field makes the profile
      route answer 500: `${user.id}` throws although name and address are strings. */
  lemma ProfileWithUnconvertibleIdIs500(clock: string)
    ensures var id := JObj(map["toString" := JNum(0)]);
      var body := UpstreamOk(JObj(map["id" := id, "name" := JStr("x"), "email" := JStr("a@b")]));
      Respond(UserProfile("4"), Ok(body), clock) ==
        Response(500, Envelope(false, None, "Failed to generate user profile", Some(Local(IdNotConvertible))))
  {
  }
}
