/**
 * Search suggestions (`SuggestionParser`, and the response dispatch of
 * `SuggestionsClient`): which parser an engine gets, and how array
 * responses in the OpenSearch Suggestions 1.1 format become a list of
 * strings.
 */
module SuggestionParser {
  import opened Wrappers

  /** A JSON value as the parser sees it; a number keeps its textual form. */
  datatype Json =
    | JNull
    | JBool(b: bool)
    | JNumber(text: string)
    | JString(s: string)
    | JArray(elems: seq<Json>)
    | JObject(members: seq<(string, Json)>)

  /**
   * `Object.toString` of an element: a string is itself, `null`, booleans and
   * numbers their literal text; arrays and objects are serialised by the
   * JSON library, passed in as `serialize`.
   */
  function ElementString(j: Json, serialize: Json -> string): string
  {
    match j
    case JNull => "null"
    case JBool(b) => if b then "true" else "false"
    case JNumber(t) => t
    case JString(s) => s
    case _ => serialize(j)
  }

  /** The parsers an engine can be given. */
  datatype ArrayParser = DefaultSuggestionParser

  /** `selectArrayResponseParser`: every engine gets the default parser. */
  function SelectArrayResponseParser(engineName: string): (p: ArrayParser)
    ensures p == DefaultSuggestionParser
  {
    DefaultSuggestionParser
  }

  /** The object parsers; there are none yet. */
  datatype ObjectParser = NoObjectParser

  /** `selectObjectResponseParser`: null for every engine, the three special-cased names included. */
  function SelectObjectResponseParser(engineName: string): (p: Option<ObjectParser>)
    ensures p.None?
  {
    if engineName == "Azerdict" then None
    else if engineName == "다음지도" then None
    else if engineName == "Qwant" then None
    else None
  }

  /**
   * The default parser's result: the string form of each element of the
   * array at `resultIndex`, or the empty list when there is no array there
   * (the JSON exception is caught).
   */
  function DefaultSuggestions(response: seq<Json>, resultIndex: int, serialize: Json -> string): (r: seq<string>)
    ensures (0 <= resultIndex < |response| && response[resultIndex].JArray?) ==>
      |r| == |response[resultIndex].elems| &&
      forall i :: 0 <= i < |r| ==> r[i] == ElementString(response[resultIndex].elems[i], serialize)
    ensures !(0 <= resultIndex < |response| && response[resultIndex].JArray?) ==> r == []
  {
    if 0 <= resultIndex < |response| && response[resultIndex].JArray? then
      seq(|response[resultIndex].elems|, i requires 0 <= i < |response[resultIndex].elems| =>
        ElementString(response[resultIndex].elems[i], serialize))
    else []
  }

  /** The parser's loop: append the string form of each element of the selected array. */
  method ParseArrayResponse(response: seq<Json>, resultIndex: int, serialize: Json -> string) returns (list: seq<string>)
    ensures list == DefaultSuggestions(response, resultIndex, serialize)
  {
    list := [];
    if !(0 <= resultIndex < |response|) || !response[resultIndex].JArray? {
      return;
    }
    var elems := response[resultIndex].elems;
    var len := |elems|;
    var i := 0;
    while i < len
      invariant 0 <= i <= len
      invariant |list| == i
      invariant forall k :: 0 <= k < i ==> list[k] == ElementString(elems[k], serialize)
    {
      list := list + [ElementString(elems[i], serialize)];
      i := i + 1;
    }
  }

  /** The client parses array responses at index 1, the completions of `[query, [completions], …]`. */
  const CompletionsIndex: int := 1

  /** An OpenSearch Suggestions response: the query, then its completions, then optional extra arrays. */
  predicate IsOpenSearchResponse(response: seq<Json>)
  {
    |response| >= 2 && response[0].JString? && response[1].JArray?
    && forall i :: 0 <= i < |response[1].elems| ==> response[1].elems[i].JString?
  }

  /** For an OpenSearch response the suggestions are exactly the completion strings, in order. */
  lemma OpenSearchCompletions(response: seq<Json>, serialize: Json -> string)
    requires IsOpenSearchResponse(response)
    ensures var r := DefaultSuggestions(response, CompletionsIndex, serialize);
      |r| == |response[1].elems| && forall i :: 0 <= i < |r| ==> r[i] == response[1].elems[i].s
  {
  }

  /** A response without an array in the completions slot gives no suggestions. */
  lemma MalformedResponse(query: Json, serialize: Json -> string)
    ensures DefaultSuggestions([query], CompletionsIndex, serialize) == []
    ensures DefaultSuggestions([query, JString("x")], CompletionsIndex, serialize) == []
    ensures DefaultSuggestions([], CompletionsIndex, serialize) == []
  {
  }

  /** What the client hands to its callback. */
  datatype ClientError = NullParser

  /** `onSuccess` for an array response: the selected parser at the completions index. */
  function OnArrayResponse(engineName: string, response: seq<Json>, serialize: Json -> string): seq<string>
  {
    match SelectArrayResponseParser(engineName)
    case DefaultSuggestionParser => DefaultSuggestions(response, CompletionsIndex, serialize)
  }

  /** `onSuccess` for an object response, as written: the selected parser is null, so applying it fails. */
  function OnObjectResponseAsWritten(engineName: string, response: Json): Result<seq<string>, ClientError>
  {
    match SelectObjectResponseParser(engineName)
    case None => Err(NullParser)
    case Some(_) => Ok([])
  }

  /** No engine gets suggestions from an object response: the call always fails. */
  lemma ObjectResponsesFail(engineName: string, response: Json)
    ensures OnObjectResponseAsWritten(engineName, response) == Err(NullParser)
  {
  }

  /** `onSuccess` for an object response when there is no object parser: no suggestions. */
  function OnObjectResponse(engineName: string, response: Json): (r: Result<seq<string>, ClientError>)
  {
    match SelectObjectResponseParser(engineName)
    case None => Ok([])
    case Some(_) => Ok([])
  }

  /** Every response reaches the callback, with an empty list for object responses. */
  lemma ObjectResponsesEmpty(engineName: string, response: Json)
    ensures OnObjectResponse(engineName, response) == Ok([])
  {
  }
}
