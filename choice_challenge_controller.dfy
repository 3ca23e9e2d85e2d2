/**
 * The ChoiceChallenge controller: pre-flight argument checks, the URLs it
 * asks the connection for, and the rebuilding of challenges from the data
 * the connection resolves with. The connection's reply is an input.
 */
module ChoiceChallengeController {
  import opened Wrappers
  import opened JsValues

  const ChoiceChallengeRequired := "choiceChallenge parameter of type \"ChoiceChallenge\" is required"
  const ChallengeIdRequired := "challengeId parameter of type \"string\" is required"

  /**
   * A ChoiceChallenge object. `created` and `updated` are None until a
   * controller assigns them; `status` reads as Undefined until then.
   */
  datatype ChoiceChallenge = ChoiceChallenge(
    id: JsValue,
    question: JsValue,
    choices: JsValue,
    created: Option<Date>,
    updated: Option<Date>,
    status: JsValue)

  /** `new ChoiceChallenge(id, question, choices)`, taken as plain record building. */
  function NewChoiceChallenge(id: JsValue, question: JsValue, choices: JsValue): ChoiceChallenge {
    ChoiceChallenge(id, question, choices, None, None, Undefined)
  }

  /** The dynamically typed argument of create: an instance or any other value. */
  datatype Argument = Instance(challenge: ChoiceChallenge) | Plain(value: JsValue)

  /** What the controller asks of the connection. */
  datatype ConnectionCall =
    | SecurePost(url: string, body: Json<ChoiceChallenge>)
    | SecureGet(url: string)

  /** `pairs.map(pair => pair.choice)` over the elements of an array. */
  function ChoicesOf(pairs: seq<JsValue>): (r: Result<seq<JsValue>, Rejection>)
    ensures r.Success? <==> forall i :: 0 <= i < |pairs| ==> !IsNullish(pairs[i])
    ensures r.Failure? ==> r.error == TypeError
    ensures r.Success? ==>
      && |r.value| == |pairs|
      && forall i :: 0 <= i < |pairs| ==> Prop(pairs[i], "choice") == Success(r.value[i])
  {
    if pairs == [] then Success([])
    else
      var first :- Prop(pairs[0], "choice");
      var rest :- ChoicesOf(pairs[1..]);
      Success([first] + rest)
  }

  /** `choices.map(pair => pair.choice)`; anything but an array has no `map`. */
  function NormaliseChoices(choices: JsValue): (r: Result<seq<JsValue>, Rejection>)
    ensures r.Success? <==> choices.Arr? && forall i :: 0 <= i < |choices.elems| ==> !IsNullish(choices.elems[i])
    ensures r.Failure? ==> r.error == TypeError
    ensures r.Success? ==>
      && |r.value| == |choices.elems|
      && forall i :: 0 <= i < |r.value| ==> Success(r.value[i]) == Prop(choices.elems[i], "choice")
  {
    if choices.Arr? then ChoicesOf(choices.elems) else Failure(TypeError)
  }

  /**
   * The reconstruction every read runs on a response datum: a new challenge
   * from the datum's id, question and choices, then created, updated, status
   * and the normalised choices assigned in that order.
   */
  function Reconstruct(data: JsValue): (r: Result<ChoiceChallenge, Rejection>)
    ensures r.Success? <==>
      && !IsNullish(data)
      && Field(data, "choices").Arr?
      && forall i :: 0 <= i < |Field(data, "choices").elems| ==> !IsNullish(Field(data, "choices").elems[i])
    ensures r.Failure? ==> r.error == TypeError
    ensures r.Success? ==>
      var c := r.value;
      var pairs := Field(data, "choices").elems;
      && c.id == Field(data, "id")
      && c.question == Field(data, "question")
      && c.created == Some(DateFrom(Field(data, "created")))
      && c.updated == Some(DateFrom(Field(data, "updated")))
      && c.status == Field(data, "status")
      && c.choices.Arr?
      && |c.choices.elems| == |pairs|
      && forall i :: 0 <= i < |pairs| ==> c.choices.elems[i] == Field(pairs[i], "choice")
  {
    if IsNullish(data) then
      // `data.id`, the first property read, throws
      Failure(TypeError)
    else
      var result := NewChoiceChallenge(Field(data, "id"), Field(data, "question"), Field(data, "choices"));
      var result := result.(created := Some(DateFrom(Field(data, "created"))));
      var result := result.(updated := Some(DateFrom(Field(data, "updated"))));
      var result := result.(status := Field(data, "status"));
      var normalised :- NormaliseChoices(Field(data, "choices"));
      Success(result.(choices := Arr(normalised)))
  }

  /** `data.map(datum => ...)` over a list response: one challenge per element, in order. */
  function ReconstructAll(data: seq<JsValue>): (r: Result<seq<ChoiceChallenge>, Rejection>)
    ensures r.Success? <==> forall i :: 0 <= i < |data| ==> Reconstruct(data[i]).Success?
    ensures r.Failure? ==> r.error == TypeError
    ensures r.Success? ==>
      && |r.value| == |data|
      && forall i :: 0 <= i < |data| ==> Success(r.value[i]) == Reconstruct(data[i])
  {
    if data == [] then Success([])
    else
      var first :- Reconstruct(data[0]);
      var rest :- ReconstructAll(data[1..]);
      Success([first] + rest)
  }

  /** `createChoiceChallenge(choiceChallenge)`, with `apiUrl` and the connection's reply as inputs. */
  function CreateChoiceChallenge(apiUrl: string, choiceChallenge: Argument, reply: Result<JsValue, Rejection>)
    : (x: Exchange<ConnectionCall, ChoiceChallenge>)
    ensures !choiceChallenge.Instance? ==> x == Exchange(None, Failure(Error(ChoiceChallengeRequired)))
    ensures choiceChallenge.Instance? ==>
      x.request == Some(SecurePost(apiUrl + "/challenges/choice", Stringified(choiceChallenge.challenge)))
    ensures choiceChallenge.Instance? && reply.Failure? ==> x.outcome == Failure(reply.error)
    ensures choiceChallenge.Instance? && reply.Success? ==> x.outcome == Reconstruct(reply.value)
  {
    if !choiceChallenge.Instance? then
      Exchange(None, Failure(Error(ChoiceChallengeRequired)))
    else
      var url := apiUrl + "/challenges/choice";
      var fd := Stringified(choiceChallenge.challenge);
      Exchange(Some(SecurePost(url, fd)), var data :- reply; Reconstruct(data))
  }

  /** `getChoiceChallenge(challengeId)`. */
  function GetChoiceChallenge(apiUrl: string, challengeId: JsValue, reply: Result<JsValue, Rejection>)
    : (x: Exchange<ConnectionCall, ChoiceChallenge>)
    ensures !challengeId.Str? ==> x == Exchange(None, Failure(Error(ChallengeIdRequired)))
    ensures challengeId.Str? ==> x.request == Some(SecureGet(apiUrl + "/challenges/choice/" + challengeId.s))
    ensures challengeId.Str? && reply.Failure? ==> x.outcome == Failure(reply.error)
    ensures challengeId.Str? && reply.Success? ==> x.outcome == Reconstruct(reply.value)
  {
    if !challengeId.Str? then
      Exchange(None, Failure(Error(ChallengeIdRequired)))
    else
      var url := apiUrl + "/challenges/choice/" + challengeId.s;
      Exchange(Some(SecureGet(url)), var data :- reply; Reconstruct(data))
  }

  /** `getChoiceChallenges()`; a reply that is not an array has no `map`. */
  function GetChoiceChallenges(apiUrl: string, reply: Result<JsValue, Rejection>)
    : (x: Exchange<ConnectionCall, seq<ChoiceChallenge>>)
    ensures x.request == Some(SecureGet(apiUrl + "/challenges/choice"))
    ensures reply.Failure? ==> x.outcome == Failure(reply.error)
    ensures reply.Success? && !reply.value.Arr? ==> x.outcome == Failure(TypeError)
    ensures reply.Success? && reply.value.Arr? ==> x.outcome == ReconstructAll(reply.value.elems)
  {
    var url := apiUrl + "/challenges/choice";
    Exchange(Some(SecureGet(url)),
      var data :- reply;
      if data.Arr? then ReconstructAll(data.elems) else Failure(TypeError))
  }

  /** The `{choice}` pair records a server sends for plain choices. */
  function ChoicePairs(choices: seq<JsValue>): (r: seq<JsValue>)
    ensures |r| == |choices|
    ensures forall i :: 0 <= i < |r| ==> r[i] == Obj(map["choice" := choices[i]])
  {
    seq(|choices|, i requires 0 <= i < |choices| => Obj(map["choice" := choices[i]]))
  }

  /** Normalising pair records gives back the plain choices they wrap. */
  lemma NormaliseChoicePairs(choices: seq<JsValue>)
    ensures NormaliseChoices(Arr(ChoicePairs(choices))) == Success(choices)
  {
    var r := ChoicesOf(ChoicePairs(choices));
    assert r.value == choices;
  }

  /**
   * A listed challenge is exactly what a get of that element would resolve
   * with: the list succeeds when every get would, and then agrees with each.
   */
  lemma ListAgreesWithGet(apiUrl: string, challengeId: string, data: seq<JsValue>)
    ensures var list := GetChoiceChallenges(apiUrl, Success(Arr(data))).outcome;
      && (list.Success? <==>
            forall i :: 0 <= i < |data| ==> GetChoiceChallenge(apiUrl, Str(challengeId), Success(data[i])).outcome.Success?)
      && (list.Success? ==>
            && |list.value| == |data|
            && forall i :: 0 <= i < |data| ==>
                 Success(list.value[i]) == GetChoiceChallenge(apiUrl, Str(challengeId), Success(data[i])).outcome)
  {
  }

  /** The created challenge is rebuilt from the reply alone: the argument only shapes the request. */
  lemma CreateResultIgnoresArgument(apiUrl: string, a: ChoiceChallenge, b: ChoiceChallenge, reply: Result<JsValue, Rejection>)
    ensures CreateChoiceChallenge(apiUrl, Instance(a), reply).outcome == CreateChoiceChallenge(apiUrl, Instance(b), reply).outcome
  {
  }

  /** The URL a get asks for is the collection's URL followed by `/` and the identifier. */
  lemma GetUrlExtendsListUrl(apiUrl: string, challengeId: string, reply: Result<JsValue, Rejection>)
    ensures GetChoiceChallenge(apiUrl, Str(challengeId), reply).request.value.url ==
      GetChoiceChallenges(apiUrl, reply).request.value.url + "/" + challengeId
  {
  }

  /**
   * The body a server sends for a stored challenge: its fields, with each
   * plain choice wrapped in a `{choice}` pair and each date as its source value.
   */
  function Served(c: ChoiceChallenge): JsValue
    requires c.choices.Arr? && c.created.Some? && c.updated.Some?
  {
    Obj(map[
      "id" := c.id,
      "question" := c.question,
      "choices" := Arr(ChoicePairs(c.choices.elems)),
      "created" := c.created.value.source,
      "updated" := c.updated.value.source,
      "status" := c.status])
  }

  /** Reading back what the server sends for a challenge rebuilds that challenge. */
  lemma ReconstructServed(c: ChoiceChallenge)
    requires c.choices.Arr? && c.created.Some? && c.updated.Some?
    ensures Reconstruct(Served(c)) == Success(c)
  {
    var data := Served(c);
    assert Field(data, "choices") == Arr(ChoicePairs(c.choices.elems));
    NormaliseChoicePairs(c.choices.elems);
  }
}
