/**
 * The session user and the text form in which the session slice keeps it in
 * browser storage. `JSON.stringify`/`JSON.parse` are modelled by a concrete
 * encoder and decoder for this one record shape: string values are quoted and
 * only the quote and the backslash are escaped.
 */
module UserJson {
  import opened Wrappers

  /** The logged-in user (interface `User` of the session slice). */
  datatype User = User(username: string, email: string, token: string)

  const UsernameMember := "{\"username\":\""
  const EmailMember := ",\"email\":\""
  const TokenMember := ",\"token\":\""
  const Closing := "}"

  function EscapeChar(c: char): string
  {
    if c == '"' || c == '\\' then ['\\', c] else [c]
  }

  /** The body of a JSON string literal holding `s`, without its quotes. */
  function Escape(s: string): string
  {
    if s == [] then [] else EscapeChar(s[0]) + Escape(s[1..])
  }

  /** One member of the record: its key text, then the value's literal and the closing quote. */
  function Field(key: string, v: string): string
  {
    key + Escape(v) + "\""
  }

  /**
   * `JSON.stringify(u)` for the user record: `{"username":"…","email":"…","token":"…"}`.
   * Unlike `JSON.stringify`, control characters and lone surrogates are written
   * as they are, so for values holding them the stored text differs.
   */
  function Serialize(u: User): (r: string)
    ensures r != "" && r[0] == '{'
  {
    Field(UsernameMember, u.username) + (Field(EmailMember, u.email) + (Field(TokenMember, u.token) + Closing))
  }

  /**
   * Reads the body of a string literal whose opening quote is already consumed:
   * the decoded value and what follows the closing quote, or `None` when the
   * text ends first or holds an escape other than `\"` and `\\`.
   */
  function ParseString(s: string): (r: Option<(string, string)>)
    ensures r.Some? ==> |r.value.1| < |s|
    ensures r.Some? && r.value.1 != [] ==> r.value.1[|r.value.1| - 1] == s[|s| - 1]
    decreases |s|
  {
    if s == [] then None
    else if s[0] == '"' then Some(([], s[1..]))
    else if s[0] == '\\' then
      if |s| >= 2 && (s[1] == '"' || s[1] == '\\') then
        match ParseString(s[2..])
        case Some((v, rest)) => Some(([s[1]] + v, rest))
        case None => None
      else None
    else
      match ParseString(s[1..])
      case Some((v, rest)) => Some(([s[0]] + v, rest))
      case None => None
  }

  /** What follows `key` in `s`, when `s` starts with `key`. */
  function After(key: string, s: string): (r: Option<string>)
    ensures r.Some? <==> key <= s
    ensures r.Some? ==> s == key + r.value
  {
    if key <= s then Some(s[|key|..]) else None
  }

  /** Reads one member: the text must start with `key`, then a string literal follows. */
  function ParseField(key: string, s: string): (r: Option<(string, string)>)
    ensures r.Some? ==> key <= s && |r.value.1| < |s|
    ensures r.Some? && r.value.1 != [] ==> r.value.1[|r.value.1| - 1] == s[|s| - 1]
  {
    match After(key, s)
    case None => None
    case Some(s1) => ParseString(s1)
  }

  /** `JSON.parse` of a stored user record; `None` where `JSON.parse` would throw. */
  function Parse(s: string): (r: Option<User>)
    ensures r.Some? ==> UsernameMember <= s && s[|s| - 1] == '}'
  {
    match ParseField(UsernameMember, s)
    case None => None
    case Some((name, r1)) =>
      match ParseField(EmailMember, r1)
      case None => None
      case Some((email, r2)) =>
        match ParseField(TokenMember, r2)
        case None => None
        case Some((token, r3)) =>
          if r3 == Closing then
            assert r3 != [] && r3[|r3| - 1] == '}';
            assert r2[|r2| - 1] == '}';
            assert r1[|r1| - 1] == '}';
            Some(User(name, email, token))
          else None
  }

  /** One escaped character in front of a literal body reads as that character. */
  lemma ParseEscapedChar(c: char, t: string, v: string, rest: string)
    requires ParseString(t) == Some((v, rest))
    ensures ParseString(EscapeChar(c) + t) == Some(([c] + v, rest))
  {
    var s := EscapeChar(c) + t;
    if c == '"' || c == '\\' {
      assert s[0] == '\\' && s[1] == c && s[2..] == t;
    } else {
      assert s[0] == c && s[1..] == t;
    }
  }

  /** Reading an escaped string back stops exactly at its closing quote. */
  lemma {:induction false} ParseEscaped(v: string, rest: string)
    ensures ParseString(Escape(v) + "\"" + rest) == Some((v, rest))
  {
    if v == [] {
      assert Escape(v) + "\"" + rest == "\"" + rest;
    } else {
      var tail := Escape(v[1..]) + "\"" + rest;
      ParseEscaped(v[1..], rest);
      assert Escape(v) + "\"" + rest == EscapeChar(v[0]) + tail;
      ParseEscapedChar(v[0], tail, v[1..], rest);
      assert [v[0]] + v[1..] == v;
    }
  }

  /** Conversely, whatever `ParseString` accepts is an escaped value followed by a quote. */
  lemma {:induction false} ParsedIsEscaped(s: string)
    requires ParseString(s).Some?
    ensures s == Escape(ParseString(s).value.0) + "\"" + ParseString(s).value.1
  {
    if s[0] == '"' {
      assert s == "\"" + s[1..];
    } else if s[0] == '\\' {
      ParsedIsEscaped(s[2..]);
      var (v, rest) := ParseString(s[2..]).value;
      assert ParseString(s).value == ([s[1]] + v, rest);
      assert ([s[1]] + v)[1..] == v;
      assert s == [s[0], s[1]] + s[2..];
    } else {
      ParsedIsEscaped(s[1..]);
      var (v, rest) := ParseString(s[1..]).value;
      assert ParseString(s).value == ([s[0]] + v, rest);
      assert ([s[0]] + v)[1..] == v;
      assert s == [s[0]] + s[1..];
    }
  }

  /** A member written by `Field` reads back as its value, leaving what follows. */
  lemma ParseFieldOf(key: string, v: string, rest: string)
    ensures ParseField(key, Field(key, v) + rest) == Some((v, rest))
  {
    assert Field(key, v) + rest == key + (Escape(v) + "\"" + rest);
    ParseEscaped(v, rest);
  }

  /** Whatever `ParseField` accepts is a member written by `Field`, then the rest. */
  lemma FieldOfParsed(key: string, s: string)
    requires ParseField(key, s).Some?
    ensures s == Field(key, ParseField(key, s).value.0) + ParseField(key, s).value.1
  {
    var s1 := After(key, s).value;
    ParsedIsEscaped(s1);
  }

  /** `JSON.parse(JSON.stringify(u))` gives back `u`. */
  lemma ParseSerialize(u: User)
    ensures Parse(Serialize(u)) == Some(u)
  {
    var t3 := Field(TokenMember, u.token) + Closing;
    var t2 := Field(EmailMember, u.email) + t3;
    ParseFieldOf(UsernameMember, u.username, t2);
    ParseFieldOf(EmailMember, u.email, t3);
    ParseFieldOf(TokenMember, u.token, Closing);
  }

  /** Every text `Parse` accepts is the serialisation of the user it yields. */
  lemma SerializeParse(s: string, u: User)
    requires Parse(s) == Some(u)
    ensures Serialize(u) == s
  {
    FieldOfParsed(UsernameMember, s);
    var (name, r1) := ParseField(UsernameMember, s).value;
    FieldOfParsed(EmailMember, r1);
    var (email, r2) := ParseField(EmailMember, r1).value;
    FieldOfParsed(TokenMember, r2);
  }

  /** Distinct users are stored as distinct texts. */
  lemma SerializeInjective(u1: User, u2: User)
    requires Serialize(u1) == Serialize(u2)
    ensures u1 == u2
  {
    ParseSerialize(u1);
    ParseSerialize(u2);
  }
}
