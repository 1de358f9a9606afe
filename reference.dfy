/**
 * The invoice reference: the JSON text `/invoice` attaches to a new invoice
 * (index.js:238-242) and the `JSON.parse(...)?.channelId` that the webhook applies
 * to it later (index.js:313-314 and 337-338).
 *
 * Only the JSON the bot itself writes is modelled: a flat object whose values
 * are strings or `null`, without whitespace or escape sequences.
 */
module Reference {
  import opened Js

  /** Text that JSON.stringify writes between quotes unchanged. */
  predicate Plain(s: string)
  {
    forall i :: 0 <= i < |s| ==> s[i] != '"' && s[i] != '\\' && s[i] >= ' '
  }

  /** A JSON value of a reference field. */
  datatype Value = Str(s: string) | Null

  function Quote(s: string): string
  {
    "\"" + s + "\""
  }

  function Render(v: Value): string
  {
    match v
    case Str(s) => Quote(s)
    case Null => "null"
  }

  function Member(key: string, v: Value): string
  {
    Quote(key) + ":" + Render(v)
  }

  /** The three members after the opening brace, with the closing brace. */
  function MemberList(guild: Value, channelId: string, invokerId: string): string
  {
    Member("guildId", guild)
      + ("," + (Member("channelId", Str(channelId))
      + ("," + (Member("invokerId", Str(invokerId)) + "}"))))
  }

  /**
   * An object of three members is braced, and its middle member is found in it
   * followed by a comma.
   */
  lemma ThreeMemberShape(first: string, middle: string, last: string)
    ensures var r := "{" + (first + ("," + (middle + ("," + (last + "}")))));
            |r| > 2 && r[0] == '{' && r[|r| - 1] == '}'
    ensures Contains("{" + (first + ("," + (middle + ("," + (last + "}"))))), middle + ",")
  {
    var tail := "," + (last + "}");
    var head := "{" + first + ",";
    var r := "{" + (first + ("," + (middle + tail)));
    assert r == head + (middle + tail);
    assert r[|head|..] == middle + tail;
    assert (middle + tail)[..|middle| + 1] == middle + ",";
  }

  /** The object is braced and holds the "channelId" member followed by a comma. */
  lemma ObjectShape(g: Value, channelId: string, invokerId: string)
    ensures var r := "{" + MemberList(g, channelId, invokerId);
            |r| > 2 && r[0] == '{' && r[|r| - 1] == '}'
    ensures Contains("{" + MemberList(g, channelId, invokerId), Member("channelId", Str(channelId)) + ",")
  {
    ThreeMemberShape(Member("guildId", g), Member("channelId", Str(channelId)), Member("invokerId", Str(invokerId)));
  }

  /**
   * `JSON.stringify({ guildId, channelId, invokerId })`; `guildId` is `null`
   * outside a server.
   */
  function Encode(guildId: Option<string>, channelId: string, invokerId: string): (r: string)
    requires guildId.Some? ==> Plain(guildId.value)
    requires Plain(channelId) && Plain(invokerId)
    ensures |r| > 2 && r[0] == '{' && r[|r| - 1] == '}'
    ensures Contains(r, Member("channelId", Str(channelId)) + ",")
  {
    var g := if guildId.Some? then Str(guildId.value) else Null;
    ObjectShape(g, channelId, invokerId);
    "{" + MemberList(g, channelId, invokerId)
  }

  /**
   * Reads a string literal whose opening quote is already consumed: its text up to
   * the closing quote, and what follows.  Escapes and control characters are refused.
   */
  function ScanString(s: string): (r: Option<(string, string)>)
    ensures r.Some? ==> |r.value.1| < |s|
    ensures r.Some? ==> Plain(r.value.0)
  {
    if |s| == 0 || s[0] == '\\' || s[0] < ' ' then None
    else if s[0] == '"' then Some(("", s[1..]))
    else
      match ScanString(s[1..])
      case Some((body, rest)) => Some(([s[0]] + body, rest))
      case None => None
  }

  function ParseValue(s: string): (r: Option<(Value, string)>)
    ensures r.Some? ==> |r.value.1| < |s|
    ensures r.Some? && r.value.0.Str? ==> Plain(r.value.0.s)
  {
    if |s| > 0 && s[0] == '"' then
      match ScanString(s[1..])
      case Some((body, rest)) => Some((Str(body), rest))
      case None => None
    else if |s| >= 4 && s[..4] == "null" then Some((Null, s[4..]))
    else None
  }

  /** One `"key":value` member: the key, the value and what follows. */
  function ParseMember(s: string): (r: Option<(string, Value, string)>)
    ensures r.Some? ==> |r.value.2| < |s|
    ensures r.Some? ==> Plain(r.value.0) && (r.value.1.Str? ==> Plain(r.value.1.s))
  {
    if |s| > 0 && s[0] == '"' then
      match ScanString(s[1..])
      case Some((key, rest)) =>
        if |rest| > 0 && rest[0] == ':' then
          match ParseValue(rest[1..])
          case Some((v, rest')) => Some((key, v, rest'))
          case None => None
        else None
      case None => None
    else None
  }

  /**
   * The members after "{" or ",", up to the closing "}".  `found` is the value of
   * the last "channelId" member so far: as in JSON.parse, a later duplicate wins.
   */
  function ParseMembers(s: string, found: Option<Value>): (r: Option<Option<Value>>)
    decreases |s|
    ensures (found.Some? && found.value.Str? ==> Plain(found.value.s)) ==>
              (r.Some? && r.value.Some? && r.value.value.Str? ==> Plain(r.value.value.s))
  {
    match ParseMember(s)
    case None => None
    case Some((key, v, rest)) =>
      var found' := if key == "channelId" then Some(v) else found;
      if rest == "}" then Some(found')
      else if |rest| > 0 && rest[0] == ',' then ParseMembers(rest[1..], found')
      else None
  }

  /**
   * `JSON.parse(s)?.channelId` as a string: `None` when `s` does not parse, when
   * the field is missing, or when it is `null`.
   */
  function ParseChannelId(s: string): (r: Option<string>)
    ensures r.Some? ==> |s| > 2 && s[0] == '{'
    ensures r.Some? ==> Plain(r.value)
  {
    if s == "{}" then None
    else if |s| > 0 && s[0] == '{' then
      match ParseMembers(s[1..], None)
      case Some(Some(Str(c))) => Some(c)
      case _ => None
    else None
  }

  lemma {:induction false} ScanPlain(body: string, rest: string)
    requires Plain(body)
    ensures ScanString(body + "\"" + rest) == Some((body, rest))
  {
    var s := body + "\"" + rest;
    if body == [] {
      assert s == "\"" + rest;
    } else {
      assert s[0] == body[0];
      assert s[1..] == body[1..] + "\"" + rest;
      ScanPlain(body[1..], rest);
      assert [body[0]] + body[1..] == body;
    }
  }

  lemma ParseRendered(v: Value, rest: string)
    requires v.Str? ==> Plain(v.s)
    ensures ParseValue(Render(v) + rest) == Some((v, rest))
  {
    match v
    case Str(body) =>
      var s := Render(v) + rest;
      assert s[1..] == body + "\"" + rest;
      ScanPlain(body, rest);
    case Null =>
      assert (Render(v) + rest)[..4] == "null";
      assert (Render(v) + rest)[4..] == rest;
  }

  lemma ParseOneMember(key: string, v: Value, rest: string)
    requires Plain(key) && (v.Str? ==> Plain(v.s))
    ensures ParseMember(Member(key, v) + rest) == Some((key, v, rest))
  {
    var s := Member(key, v) + rest;
    var tail := ":" + Render(v) + rest;
    assert s[1..] == key + "\"" + tail;
    ScanPlain(key, tail);
    assert tail[1..] == Render(v) + rest;
    ParseRendered(v, rest);
  }

  /** One member followed by the members after it. */
  lemma ParseMembersStep(key: string, v: Value, tail: string, found: Option<Value>)
    requires Plain(key) && (v.Str? ==> Plain(v.s))
    requires |tail| > 0 && tail[0] == ','
    ensures ParseMembers(Member(key, v) + tail, found)
         == ParseMembers(tail[1..], if key == "channelId" then Some(v) else found)
  {
    ParseOneMember(key, v, tail);
  }

  /** The last member, followed by the closing brace. */
  lemma ParseMembersLast(key: string, v: Value, found: Option<Value>)
    requires Plain(key) && (v.Str? ==> Plain(v.s))
    ensures ParseMembers(Member(key, v) + "}", found) == Some(if key == "channelId" then Some(v) else found)
  {
    ParseOneMember(key, v, "}");
  }

  /** An object is its opening brace and its member list. */
  lemma ParseObject(body: string, c: string)
    requires ParseMembers(body, None) == Some(Some(Str(c)))
    ensures ParseChannelId("{" + body) == Some(c)
  {
    var s := "{" + body;
    assert ParseMembers("}", None) == None;
    assert s[1..] == body && "{}"[1..] == "}";
  }

  lemma ChannelIdKeyIsPlain()
    ensures Plain("channelId")
  {
  }

  /** Three members, the second of them "channelId". */
  lemma ParseThreeMembers(k1: string, v1: Value, v2: Value, k3: string, v3: Value)
    requires Plain(k1) && (v1.Str? ==> Plain(v1.s))
    requires v2.Str? ==> Plain(v2.s)
    requires Plain(k3) && (v3.Str? ==> Plain(v3.s))
    requires k1 != "channelId" && k3 != "channelId"
    ensures ParseMembers(Member(k1, v1) + ("," + (Member("channelId", v2) + ("," + (Member(k3, v3) + "}")))), None)
         == Some(Some(v2))
  {
    ChannelIdKeyIsPlain();
    var r2 := "," + (Member(k3, v3) + "}");
    var r1 := "," + (Member("channelId", v2) + r2);
    ParseMembersStep(k1, v1, r1, None);
    assert r1[1..] == Member("channelId", v2) + r2;
    ParseMembersStep("channelId", v2, r2, None);
    assert r2[1..] == Member(k3, v3) + "}";
    ParseMembersLast(k3, v3, Some(v2));
  }

  /** Decoding the reference that `/invoice` builds recovers its channel id. */
  lemma EncodeRoundTrip(guildId: Option<string>, channelId: string, invokerId: string)
    requires guildId.Some? ==> Plain(guildId.value)
    requires Plain(channelId) && Plain(invokerId)
    ensures ParseChannelId(Encode(guildId, channelId, invokerId)) == Some(channelId)
  {
    var g := if guildId.Some? then Str(guildId.value) else Null;
    assert "guildId" != "channelId" by { assert "guildId"[0] != "channelId"[0]; }
    assert "invokerId" != "channelId" by { assert "invokerId"[0] != "channelId"[0]; }
    ParseThreeMembers("guildId", g, Str(channelId), "invokerId", Str(invokerId));
    ParseObject(MemberList(g, channelId, invokerId), channelId);
  }
}
