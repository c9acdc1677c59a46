/** `InstagramBot.get_natural_response`: the keyword fast path, the call to the
    language model, and the fallback to a canned greeting. */
module Responder {
  import opened Wrappers
  import opened Settings
  import opened Text

  /** What the language-model client hands back for one completion request:
      the text of the first choice, or an exception of any kind (timeout,
      quota, a missing `content`). */
  datatype LlmReply = Completion(content: string) | ApiError

  /** Whether the lower-cased message contains one of the club keywords. */
  predicate AboutClub(cfg: Config, message: string) {
    AnyOccurs(cfg.clubKeywords, Lower(message))
  }

  /** `random.choice(list(DEFAULT_RESPONSES.values())[0])`: `pick` is the
      random draw; `None` when the dictionary or its first list is empty, where
      Python raises `IndexError` out of the handler. */
  function Fallback(cfg: Config, pick: nat): (r: Option<string>)
    ensures r.Some? <==> |cfg.defaultResponses| > 0 && |cfg.defaultResponses[0].replies| > 0
    ensures r.Some? ==> r.value in cfg.defaultResponses[0].replies
  {
    if |cfg.defaultResponses| == 0 then None
    else
      var replies := cfg.defaultResponses[0].replies;
      if |replies| == 0 then None else Some(replies[pick % |replies|])
  }

  /** The reply to `message`. `llm` is what the model would answer if asked;
      `None` means the call raised past the method's own handler. */
  function NaturalResponse(cfg: Config, message: string, llm: LlmReply, pick: nat): Option<string> {
    if AboutClub(cfg, message) then Some(cfg.clubInfo)
    else match llm
      case Completion(content) => Some(Strip(content))
      case ApiError => Fallback(cfg, pick)
  }

  /** A keyword hit answers exactly `CLUB_INFO`, whatever the model would have
      said and whatever the random draw: the model is not consulted. */
  lemma KeywordFastPath(cfg: Config, message: string, llm1: LlmReply, llm2: LlmReply, pick1: nat, pick2: nat)
    requires exists i :: 0 <= i < |cfg.clubKeywords| && Occurs(cfg.clubKeywords[i], Lower(message))
    ensures NaturalResponse(cfg, message, llm1, pick1) == Some(cfg.clubInfo)
    ensures NaturalResponse(cfg, message, llm1, pick1) == NaturalResponse(cfg, message, llm2, pick2)
  {
    AnyOccursIff(cfg.clubKeywords, Lower(message));
  }

  /** Without a keyword the answer is the model's, trimmed of surrounding
      whitespace. */
  lemma ModelAnswerStripped(cfg: Config, message: string, content: string, pick: nat)
    requires forall i :: 0 <= i < |cfg.clubKeywords| ==> !Occurs(cfg.clubKeywords[i], Lower(message))
    ensures NaturalResponse(cfg, message, Completion(content), pick) == Some(Strip(content))
  {
    AnyOccursIff(cfg.clubKeywords, Lower(message));
  }

  /** When the model fails on a message without a keyword, the reply is one
      of the first list of default responses, and every one of them can be
      drawn. */
  lemma ModelFailureFallsBack(cfg: Config, message: string, pick: nat, j: nat)
    requires forall i :: 0 <= i < |cfg.clubKeywords| ==> !Occurs(cfg.clubKeywords[i], Lower(message))
    requires |cfg.defaultResponses| > 0 && j < |cfg.defaultResponses[0].replies|
    ensures NaturalResponse(cfg, message, ApiError, pick).Some?
    ensures NaturalResponse(cfg, message, ApiError, pick).value in cfg.defaultResponses[0].replies
    ensures NaturalResponse(cfg, message, ApiError, j) == Some(cfg.defaultResponses[0].replies[j])
  {
    AnyOccursIff(cfg.clubKeywords, Lower(message));
    assert !AboutClub(cfg, message);
    var replies := cfg.defaultResponses[0].replies;
    assert j % |replies| == j;
    assert Fallback(cfg, j) == Some(replies[j]);
  }

  /** The match ignores case: a keyword written in the message as `w`, in
      any mix of cases that lower-cases to the keyword, still selects
      `CLUB_INFO`. */
  lemma MatchIgnoresCase(cfg: Config, message: string, k: string, w: string, pick: nat, llm: LlmReply)
    requires k in cfg.clubKeywords && Lower(w) == k
    requires Occurs(w, message)
    ensures NaturalResponse(cfg, message, llm, pick) == Some(cfg.clubInfo)
  {
    var i :| 0 <= i < |cfg.clubKeywords| && cfg.clubKeywords[i] == k;
    LowerKeepsOccurrence(w, message);
    KeywordFastPath(cfg, message, llm, llm, pick, pick);
  }

  /** With the shipped configuration a reply is always produced: the
      generator never raises past its boundary. */
  lemma ShippedAlwaysAnswers(message: string, llm: LlmReply, pick: nat)
    ensures NaturalResponse(Shipped, message, llm, pick).Some?
  {
  }
}
