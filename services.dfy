/**
 * The external services the application calls, as oracles. Each one keeps an
 * append-only log of the requests it received; its answer is a fixed function
 * of the request and of the number of requests it had received before, so
 * that two identical requests may still be answered differently.
 */
module Services {
  import opened Turns

  /** `client.chat.completions.create(model=..., messages=...)`. */
  datatype ChatRequest = ChatRequest(model: string, messages: seq<Turn>)

  class ChatApi {
    const answer: (nat, ChatRequest) -> string
    var requests: seq<ChatRequest>

    constructor (answer: (nat, ChatRequest) -> string)
      ensures this.answer == answer && requests == []
    {
      this.answer := answer;
      requests := [];
    }

    /** `response.choices[0].message.content` of one completion. */
    method Complete(request: ChatRequest) returns (text: string)
      modifies this
      ensures requests == old(requests) + [request]
      ensures text == answer(|old(requests)|, request)
    {
      text := answer(|requests|, request);
      requests := requests + [request];
    }
  }

  /** `requests.get(url, params={'message': message}, headers=...)`. */
  datatype FitnessQuery = FitnessQuery(url: string, message: string)

  /**
   * How a fitness query ends: a `RequestException` (a transport failure, or
   * an undecodable body, which requests 2.27 and later raise as one), or a
   * decoded JSON body.
   */
  datatype FitnessOutcome = RequestFailed | Responded(body: string)

  class FitnessApi {
    const outcome: (nat, FitnessQuery) -> FitnessOutcome
    var queries: seq<FitnessQuery>

    constructor (outcome: (nat, FitnessQuery) -> FitnessOutcome)
      ensures this.outcome == outcome && queries == []
    {
      this.outcome := outcome;
      queries := [];
    }

    method Get(query: FitnessQuery) returns (result: FitnessOutcome)
      modifies this
      ensures queries == old(queries) + [query]
      ensures result == outcome(|old(queries)|, query)
    {
      result := outcome(|queries|, query);
      queries := queries + [query];
    }
  }

  /** One image as `process_images` hands it to the vision model. */
  datatype ImagePart = ImagePart(mimeType: string, data: seq<bv8>)

  /**
   * The two profile fields interpolated into the vision prompt of `upload`;
   * the fixed prose around them is not modelled.
   */
  datatype Prompt = Prompt(name: string, additionalInformation: string)

  /** `get_gemini_response(input, image_parts, prompt)`. */
  datatype VisionRequest = VisionRequest(input: Prompt, images: seq<ImagePart>, prompt: Prompt)

  class VisionApi {
    const answer: (nat, VisionRequest) -> string
    var requests: seq<VisionRequest>

    constructor (answer: (nat, VisionRequest) -> string)
      ensures this.answer == answer && requests == []
    {
      this.answer := answer;
      requests := [];
    }

    method Generate(request: VisionRequest) returns (text: string)
      modifies this
      ensures requests == old(requests) + [request]
      ensures text == answer(|old(requests)|, request)
    {
      text := answer(|requests|, request);
      requests := requests + [request];
    }
  }
}
