/**
 * Parsing of the notification body: a sequence of `Key=Value` tokens (already split by the
 * shell-style tokenizer) becomes a key-to-value map, as `dict(token.split('=', 1) ...)` does.
 */
module Notification {
  import opened Results
  import opened Text

  /**
   * `token.split('=', 1)` when it yields the two parts that a dictionary entry needs:
   * the key is everything before the first `=`, the value everything after it.
   */
  function SplitOnce(token: string): (r: Option<(string, string)>)
    ensures r.None? <==> '=' !in token
    ensures r.Some? ==> token == r.value.0 + "=" + r.value.1 && '=' !in r.value.0
  {
    match IndexOf(token, '=')
    case None => None
    case Some(i) =>
      assert token == token[..i] + "=" + token[i + 1..];
      Some((token[..i], token[i + 1..]))
  }

  /** Splitting undoes `key + "=" + value` for every key without `=`; the value may hold `=`. */
  lemma SplitOnceJoined(key: string, value: string)
    requires '=' !in key
    ensures SplitOnce(key + "=" + value) == Some((key, value))
  {
    var token := key + "=" + value;
    assert token[..|key|] == key && token[|key|] == '=';
    assert token[|key| + 1..] == value;
  }

  /**
   * `dict(token.split('=', 1) for token in tokens)`: entries are added left to right, so a
   * later token for a key replaces an earlier one; the first token without `=` fails the whole parse.
   */
  function ParseTokens(tokens: seq<string>): (r: Result<map<string, string>, Error>)
    ensures r.Success? <==> forall i :: 0 <= i < |tokens| ==> '=' in tokens[i]
  {
    if tokens == [] then Success(map[])
    else
      var front :- ParseTokens(tokens[..|tokens| - 1]);
      var last := tokens[|tokens| - 1];
      match SplitOnce(last)
      case None => Failure(MalformedToken(last))
      case Some((key, value)) => Success(front[key := value])
  }

  /** The key a well-formed token assigns. */
  function KeyOf(token: string): string
    requires '=' in token
  {
    SplitOnce(token).value.0
  }

  /** The parse fails exactly at the first token that has no `=`. */
  lemma {:induction false} ParseFailsAtFirstMalformed(tokens: seq<string>, i: nat)
    requires i < |tokens| && '=' !in tokens[i]
    requires forall j :: 0 <= j < i ==> '=' in tokens[j]
    ensures ParseTokens(tokens) == Failure(MalformedToken(tokens[i]))
    decreases |tokens|
  {
    var front := tokens[..|tokens| - 1];
    if i < |tokens| - 1 {
      assert front[i] == tokens[i];
      ParseFailsAtFirstMalformed(front, i);
    }
  }

  /** A key's value is the one given by the last token that names that key. */
  lemma {:induction false} ParseLastTokenWins(tokens: seq<string>, i: nat)
    requires ParseTokens(tokens).Success?
    requires i < |tokens|
    requires forall j :: i < j < |tokens| ==> KeyOf(tokens[j]) != KeyOf(tokens[i])
    ensures KeyOf(tokens[i]) in ParseTokens(tokens).value
    ensures ParseTokens(tokens).value[KeyOf(tokens[i])] == SplitOnce(tokens[i]).value.1
    decreases |tokens|
  {
    var front := tokens[..|tokens| - 1];
    if i < |tokens| - 1 {
      assert front[i] == tokens[i];
      forall j | i < j < |front| ensures KeyOf(front[j]) != KeyOf(front[i]) {
        assert front[j] == tokens[j];
      }
      ParseLastTokenWins(front, i);
    }
  }

  /** Every key of the parsed map is the key of some token. */
  lemma {:induction false} ParseKeysFromTokens(tokens: seq<string>, key: string)
    requires ParseTokens(tokens).Success?
    requires key in ParseTokens(tokens).value
    ensures exists i :: 0 <= i < |tokens| && KeyOf(tokens[i]) == key
    decreases |tokens|
  {
    var front := tokens[..|tokens| - 1];
    var last := tokens[|tokens| - 1];
    if KeyOf(last) != key {
      ParseKeysFromTokens(front, key);
      var i :| 0 <= i < |front| && KeyOf(front[i]) == key;
      assert tokens[i] == front[i];
    }
  }

  /** A value may itself hold `=`: only the first one separates key from value. */
  lemma ExampleValueWithEquals()
    ensures SplitOnce("Tags=env=prod") == Some(("Tags", "env=prod"))
  {
    var key, value := "Tags", "env=prod";
    assert '=' !in key by {
      assert key == ['T', 'a', 'g', 's'];
    }
    SplitOnceJoined(key, value);
    assert key + "=" + value == "Tags=env=prod";
  }
}
