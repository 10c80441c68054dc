/** Redaction of audit snapshots: sensitive values are masked at every depth of a JSON tree. */
module Redaction {

  datatype Json =
    | Null
    | Bool(flag: bool)
    | Number(value: real)
    | Text(text: string)
    | List(items: seq<Json>)
    | Object(fields: map<string, Json>)

  const REDACTED := Text("[REDACTED]")

  const SENSITIVE_TOKENS := ["password", "passwd", "token", "authorization", "secret", "credential", "private_key", "apikey", "api_key"]

  /**
    Turns '-' and ' ' into '_' and lower-cases, as far as the tokens can tell: besides A to Z, the dotted
    capital I and the Kelvin sign are the only characters whose lower case is a token's letter.
   */
  function Folded(c: char): char {
    if c == '-' || c == ' ' then '_'
    else if 'A' <= c <= 'Z' then (c as int + 32) as char
    else if c == '\U{0130}' then 'i'
    else if c == '\U{212A}' then 'k'
    else c
  }

  function FoldedKey(key: string): string {
    seq(|key|, i requires 0 <= i < |key| => Folded(key[i]))
  }

  predicate Contains(text: string, token: string) {
    exists i | 0 <= i <= |text| :: token <= text[i..]
  }

  predicate Sensitive(key: string) {
    exists i | 0 <= i < |SENSITIVE_TOKENS| :: Contains(FoldedKey(key), SENSITIVE_TOKENS[i])
  }

  function Scrubbed(node: Json): Json {
    match node
    case List(items) => List(seq(|items|, i requires 0 <= i < |items| => Scrubbed(items[i])))
    case Object(fields) =>
      Object(map key | key in fields :: if Sensitive(key) then REDACTED else Scrubbed(fields[key]))
    case _ => node
  }

  /** The recursive walk of the source, which overwrites the entries of each map it visits. */
  method Scrub(node: Json) returns (scrubbed: Json)
    ensures scrubbed == Scrubbed(node)
    decreases node, 1
  {
    match node
    case Object(fields) =>
      scrubbed := ScrubFields(fields, node);
    case List(items) =>
      var children: seq<Json> := [];
      for i := 0 to |items|
        invariant |children| == i
        invariant forall k | 0 <= k < i :: children[k] == Scrubbed(items[k])
      {
        var child := Scrub(items[i]);
        children := children + [child];
      }
      assert children == Scrubbed(node).items;
      scrubbed := List(children);
    case _ =>
      scrubbed := node;
  }

  method ScrubFields(fields: map<string, Json>, ghost node: Json) returns (scrubbed: Json)
    requires node == Object(fields)
    ensures scrubbed == Scrubbed(node)
    decreases node, 0
  {
    hide Sensitive;
    var current := fields;
    var unseen := fields.Keys;
    while unseen != {}
      invariant unseen <= fields.Keys && current.Keys == fields.Keys
      invariant forall key | key in unseen :: current[key] == fields[key]
      invariant forall key | key in fields && key !in unseen ::
                  current[key] == if Sensitive(key) then REDACTED else Scrubbed(fields[key])
      decreases |unseen|
    {
      var key :| key in unseen;
      unseen := unseen - {key};
      if Sensitive(key) {
        current := current[key := REDACTED];
      } else {
        var child := Scrub(fields[key]);
        current := current[key := child];
      }
    }
    assert current == Scrubbed(node).fields;
    scrubbed := Object(current);
  }

  /** No sensitive key keeps a value, at any depth. */
  ghost predicate Masked(node: Json) {
    match node
    case List(items) => forall i | 0 <= i < |items| :: Masked(items[i])
    case Object(fields) =>
      forall key | key in fields :: if Sensitive(key) then fields[key] == REDACTED else Masked(fields[key])
    case _ => true
  }

  /** `after` is `before` everywhere except below sensitive keys: same keys, same lengths, same leaves. */
  ghost predicate AgreesOutsideSecrets(before: Json, after: Json) {
    match before
    case List(items) =>
      after.List? && |after.items| == |items|
      && forall i | 0 <= i < |items| :: AgreesOutsideSecrets(items[i], after.items[i])
    case Object(fields) =>
      after.Object? && after.fields.Keys == fields.Keys
      && forall key | key in fields && !Sensitive(key) :: AgreesOutsideSecrets(fields[key], after.fields[key])
    case _ => after == before
  }

  /** Scrubbing masks every sensitive key at every depth and touches nothing else. */
  lemma {:induction false} ScrubbingMasks(node: Json)
    ensures Masked(Scrubbed(node))
    ensures AgreesOutsideSecrets(node, Scrubbed(node))
  {
    match node
    case List(items) =>
      forall i | 0 <= i < |items| ensures Masked(Scrubbed(items[i])) && AgreesOutsideSecrets(items[i], Scrubbed(items[i])) {
        ScrubbingMasks(items[i]);
      }
    case Object(fields) =>
      forall key | key in fields && !Sensitive(key)
        ensures Masked(Scrubbed(fields[key])) && AgreesOutsideSecrets(fields[key], Scrubbed(fields[key]))
      {
        ScrubbingMasks(fields[key]);
      }
    case _ =>
  }

  /** A tree is left alone exactly when it is already masked. */
  lemma {:induction false} MaskedIsFixed(node: Json)
    ensures Scrubbed(node) == node <==> Masked(node)
  {
    match node
    case List(items) =>
      forall i | 0 <= i < |items| ensures Scrubbed(items[i]) == items[i] <==> Masked(items[i]) {
        MaskedIsFixed(items[i]);
      }
      var scrubbed := Scrubbed(node).items;
      assert (forall i | 0 <= i < |items| :: scrubbed[i] == items[i]) <==> scrubbed == items;
    case Object(fields) =>
      forall key | key in fields && !Sensitive(key) ensures Scrubbed(fields[key]) == fields[key] <==> Masked(fields[key]) {
        MaskedIsFixed(fields[key]);
      }
      var scrubbed := Scrubbed(node).fields;
      assert (forall key | key in fields :: scrubbed[key] == fields[key]) <==> scrubbed == fields;
    case _ =>
  }

  /** The redacted tree is determined by what lies outside the secrets: scrubbing forgets them completely. */
  lemma {:induction false} SecretsAreForgotten(node: Json, other: Json)
    requires AgreesOutsideSecrets(node, other)
    ensures Scrubbed(node) == Scrubbed(other)
  {
    match node
    case List(items) =>
      forall i | 0 <= i < |items| ensures Scrubbed(items[i]) == Scrubbed(other.items[i]) {
        SecretsAreForgotten(items[i], other.items[i]);
      }
      assert Scrubbed(node).items == Scrubbed(other).items;
    case Object(fields) =>
      forall key | key in fields && !Sensitive(key) ensures Scrubbed(fields[key]) == Scrubbed(other.fields[key]) {
        SecretsAreForgotten(fields[key], other.fields[key]);
      }
      assert Scrubbed(node).fields == Scrubbed(other).fields;
    case _ =>
  }

  /** A second pass changes nothing. */
  lemma ScrubbingTwice(node: Json)
    ensures Scrubbed(Scrubbed(node)) == Scrubbed(node)
  {
    ScrubbingMasks(node);
    MaskedIsFixed(Scrubbed(node));
  }

  // --- Which keys are sensitive ---------------------------------------------------------------

  /** The character `c` of a key stands for the character `d` of a token. */
  predicate StandsFor(c: char, d: char) {
    if d == '_' then c == '_' || c == '-' || c == ' '
    else c == d || c as int == d as int - 32 || (d == 'i' && c == '\U{0130}') || (d == 'k' && c == '\U{212A}')
  }

  /** The token is written in the key from position `i` on. */
  predicate WrittenAt(key: string, token: string, i: nat) {
    i + |token| <= |key| && forall j | 0 <= j < |token| :: StandsFor(key[i + j], token[j])
  }

  lemma FoldedStandsFor(c: char, d: char)
    requires 'a' <= d <= 'z' || d == '_'
    ensures Folded(c) == d <==> StandsFor(c, d)
  {
  }

  predicate Plain(token: string) {
    forall j | 0 <= j < |token| :: 'a' <= token[j] <= 'z' || token[j] == '_'
  }

  lemma ContainsExactly(key: string, token: string)
    requires Plain(token)
    ensures Contains(FoldedKey(key), token) <==> exists i :: WrittenAt(key, token, i)
  {
    var folded := FoldedKey(key);
    if Contains(folded, token) {
      var i :| 0 <= i <= |folded| && token <= folded[i..];
      forall j | 0 <= j < |token| ensures StandsFor(key[i + j], token[j]) {
        assert folded[i..][j] == Folded(key[i + j]);
        FoldedStandsFor(key[i + j], token[j]);
      }
      assert WrittenAt(key, token, i);
    }
    if i: nat :| WrittenAt(key, token, i) {
      forall j | 0 <= j < |token| ensures folded[i + j] == token[j] {
        FoldedStandsFor(key[i + j], token[j]);
      }
      assert token == folded[i..i + |token|];
      assert token <= folded[i..];
    }
  }

  /** A key is sensitive exactly when one of nine tokens is written somewhere in it, in any case and with '-' or ' ' for '_'. */
  lemma SensitiveExactly(key: string)
    ensures Sensitive(key) <==> exists token, i ::
      token in {"password", "passwd", "token", "authorization", "secret", "credential", "private_key", "apikey", "api_key"}
      && WrittenAt(key, token, i)
  {
    var tokens := {"password", "passwd", "token", "authorization", "secret", "credential", "private_key", "apikey", "api_key"};
    assert forall token :: token in SENSITIVE_TOKENS <==> token in tokens;
    forall k | 0 <= k < |SENSITIVE_TOKENS| ensures Contains(FoldedKey(key), SENSITIVE_TOKENS[k]) <==> exists i :: WrittenAt(key, SENSITIVE_TOKENS[k], i) {
      TokensArePlain(k);
      ContainsExactly(key, SENSITIVE_TOKENS[k]);
    }
    hide Contains, WrittenAt;
    if token, i :| token in tokens && WrittenAt(key, token, i) {
      var k :| 0 <= k < |SENSITIVE_TOKENS| && SENSITIVE_TOKENS[k] == token;
    }
  }

  lemma TokensArePlain(k: nat)
    requires k < |SENSITIVE_TOKENS|
    ensures Plain(SENSITIVE_TOKENS[k])
  {
  }

  /** One object: what a sensitive key holds afterwards, and what any other does. */
  lemma ScrubbedField(fields: map<string, Json>, key: string)
    requires key in fields
    ensures Scrubbed(Object(fields)).Object? && Scrubbed(Object(fields)).fields.Keys == fields.Keys
    ensures Scrubbed(Object(fields)).fields[key] == if Sensitive(key) then Text("[REDACTED]") else Scrubbed(fields[key])
  {
    hide Sensitive;
  }
}
