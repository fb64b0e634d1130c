/** Matching a requested message type against the envelope's list of
    supported type URNs, and what resolving a type yields. Both
    JsonConsumeContext.HasMessageType and TryGetMessage are specified here,
    over the per-type cache the context keeps. */
module TypeMatching {
  import opened Common
  import opened Text

  /** The per-type cache (the context's _messageTypes): None records a type
      that was looked up and found absent. */
  type Cache = map<TypeKey, Option<Message>>

  /** supportedTypes.Any(urn.Equals): ordinal, case-sensitive membership. */
  function AnyEqual(urn: string, supportedTypes: seq<string>): (r: bool)
    ensures r <==> exists i :: 0 <= i < |supportedTypes| && supportedTypes[i] == urn
  {
    if supportedTypes == [] then false
    else
      var rest := AnyEqual(urn, supportedTypes[1..]);
      assert forall i :: 1 <= i < |supportedTypes| ==> supportedTypes[i] == supportedTypes[1..][i - 1];
      supportedTypes[0] == urn || rest
  }

  /** supportedTypes.Any(x => urn.Equals(x, OrdinalIgnoreCase)). */
  function AnyEqualIgnoringCase(urn: string, supportedTypes: seq<string>): (r: bool)
    ensures r <==> exists i :: 0 <= i < |supportedTypes| && EqualsIgnoreCase(urn, supportedTypes[i])
  {
    if supportedTypes == [] then false
    else
      var rest := AnyEqualIgnoringCase(urn, supportedTypes[1..]);
      assert forall i :: 1 <= i < |supportedTypes| ==> supportedTypes[i] == supportedTypes[1..][i - 1];
      EqualsIgnoreCase(urn, supportedTypes[0]) || rest
  }

  /** Whether resolving t runs the deserializer: any type but the raw token
      type whose URN is, case-sensitively, in the supported list. */
  predicate NeedsDeserializer(c: Collaborators, supportedTypes: seq<string>, t: TypeKey) {
    t != JTokenType && AnyEqual(c.urn(t), supportedTypes)
  }

  /** The outcome a first TryGetMessage for t caches: the raw token itself
      for the token type, the deserialized message for a supported type, and
      absent otherwise. */
  function Resolve(c: Collaborators, token: Token, supportedTypes: seq<string>, t: TypeKey): (r: Option<Message>)
    ensures t == JTokenType ==> r == Some(Message(JTokenType, token))
    ensures t != JTokenType ==>
      (r.Some? <==> exists i :: 0 <= i < |supportedTypes| && supportedTypes[i] == c.urn(t))
    ensures r.Some? && t != JTokenType ==> r.value == c.deserialize(token, t)
  {
    if t == JTokenType then Some(Message(JTokenType, token))
    else if AnyEqual(c.urn(t), supportedTypes) then Some(c.deserialize(token, t))
    else None
  }

  /** What HasMessageType answers for t: a cached entry decides by itself
      (present or absent); with no entry, the URN is matched ignoring case. */
  function HasMessageTypeIn(cache: Cache, c: Collaborators, supportedTypes: seq<string>, t: TypeKey): (r: bool)
    ensures t in cache ==> r == cache[t].Some?
    ensures t !in cache ==>
      (r <==> exists i :: 0 <= i < |supportedTypes| && EqualsIgnoreCase(c.urn(t), supportedTypes[i]))
  {
    if t in cache then cache[t].Some? else AnyEqualIgnoringCase(c.urn(t), supportedTypes)
  }

  /** A case-sensitive match is also a case-insensitive one. */
  lemma ExactMatchIsCaseInsensitiveMatch(urn: string, supportedTypes: seq<string>)
    requires AnyEqual(urn, supportedTypes)
    ensures AnyEqualIgnoringCase(urn, supportedTypes)
  {
    var i :| 0 <= i < |supportedTypes| && supportedTypes[i] == urn;
    assert EqualsIgnoreCase(urn, supportedTypes[i]);
  }

  /** Once t has been resolved and cached, HasMessageType(t) answers exactly
      whether the resolution found a message. */
  lemma HasMessageTypeAfterResolve(cache: Cache, c: Collaborators, token: Token, supportedTypes: seq<string>, t: TypeKey)
    ensures HasMessageTypeIn(cache[t := Resolve(c, token, supportedTypes, t)], c, supportedTypes, t)
        == Resolve(c, token, supportedTypes, t).Some?
  {
  }

  /** For a type that is not the raw token type and has no cache entry yet,
      HasMessageType can only gain from a case-sensitive match: whenever
      TryGetMessage would find the type, HasMessageType already says so, and
      keeps saying so once the entry is cached. */
  lemma FoundTypeIsReportedBeforeAndAfter(cache: Cache, c: Collaborators, token: Token, supportedTypes: seq<string>, t: TypeKey)
    requires t !in cache && t != JTokenType
    requires Resolve(c, token, supportedTypes, t).Some?
    ensures HasMessageTypeIn(cache, c, supportedTypes, t)
    ensures HasMessageTypeIn(cache[t := Resolve(c, token, supportedTypes, t)], c, supportedTypes, t)
  {
    ExactMatchIsCaseInsensitiveMatch(c.urn(t), supportedTypes);
  }

  /** The asymmetry between the two lookups: when t's URN matches a supported
      type only up to case, HasMessageType is true before TryGetMessage runs
      and false after it has cached the absent outcome. */
  lemma CaseOnlyMismatchFlipsHasMessageType(cache: Cache, c: Collaborators, token: Token, supportedTypes: seq<string>, t: TypeKey)
    requires t !in cache && t != JTokenType
    requires exists i :: 0 <= i < |supportedTypes| && EqualsIgnoreCase(c.urn(t), supportedTypes[i])
    requires forall i :: 0 <= i < |supportedTypes| ==> supportedTypes[i] != c.urn(t)
    ensures HasMessageTypeIn(cache, c, supportedTypes, t)
    ensures Resolve(c, token, supportedTypes, t) == None
    ensures !HasMessageTypeIn(cache[t := Resolve(c, token, supportedTypes, t)], c, supportedTypes, t)
  {
  }

  /** A concrete instance of the asymmetry: the type's URN is spelled
      "urn:Ping" and the envelope lists "urn:ping". */
  lemma CaseOnlyMismatchExample(c: Collaborators, token: Token)
    requires c.urn(MessageType("Ping")) == "urn:Ping"
    ensures HasMessageTypeIn(map[], c, ["urn:ping"], MessageType("Ping"))
    ensures Resolve(c, token, ["urn:ping"], MessageType("Ping")) == None
    ensures !HasMessageTypeIn(map[MessageType("Ping") := None], c, ["urn:ping"], MessageType("Ping"))
  {
    var a, b := "urn:Ping", "urn:ping";
    assert forall i :: 0 <= i < |a| ==> ToUpperOrdinal(a[i]) == ToUpperOrdinal(b[i]);
    assert a != b by { assert a[4] != b[4]; }
    assert EqualsIgnoreCase(c.urn(MessageType("Ping")), [b][0]);
    CaseOnlyMismatchFlipsHasMessageType(map[], c, token, [b], MessageType("Ping"));
  }

  /** Without a cache entry, HasMessageType does not depend on the order of
      the supported types (nor on repetitions in it). */
  lemma HasMessageTypeIgnoresOrder(c: Collaborators, s1: seq<string>, s2: seq<string>, t: TypeKey)
    requires multiset(s1) == multiset(s2)
    ensures HasMessageTypeIn(map[], c, s1, t) == HasMessageTypeIn(map[], c, s2, t)
  {
    if HasMessageTypeIn(map[], c, s1, t) {
      var i :| 0 <= i < |s1| && EqualsIgnoreCase(c.urn(t), s1[i]);
      assert s1[i] in multiset(s2);
      var j :| 0 <= j < |s2| && s2[j] == s1[i];
      assert EqualsIgnoreCase(c.urn(t), s2[j]);
    }
    if HasMessageTypeIn(map[], c, s2, t) {
      var j :| 0 <= j < |s2| && EqualsIgnoreCase(c.urn(t), s2[j]);
      assert s2[j] in multiset(s1);
      var i :| 0 <= i < |s1| && s1[i] == s2[j];
      assert EqualsIgnoreCase(c.urn(t), s1[i]);
    }
  }
}
