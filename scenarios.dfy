/**
 * What a caller can conclude from the contracts alone: a session that sends a
 * message too early, registers, uploads an image, then asks one general and
 * one fitness question.
 */
module Scenarios {
  import opened Wrappers
  import opened Router
  import opened Turns
  import opened Services
  import opened Web
  import Store

  /** Sending before any upload is refused; registering and uploading make the session active. */
  method SignUp(images: seq<ImagePart>) returns (s: Session)
    ensures s.systemMessage.Some? && s.conversation == []
  {
    s := new Session();
    var db := new Store.Database();
    var chat := new ChatApi((n: nat, r: ChatRequest) => "Hi there");
    var fitness := new FitnessApi((n: nat, q: FitnessQuery) => RequestFailed);
    var vision := new VisionApi((n: nat, r: VisionRequest) => "An intermediate lifter");

    var early := SendMessage(s, db, chat, fitness, "Hello");
    assert early == RedirectToImage && s.conversation == [] && db.messages == [];

    var joined := Register(s, db, SignupForm("Ada", "ada1", "2000-01-01"), Some(Store.Date(2000, 1, 1)));
    assert joined == Registered && s.userId == Some(1);
    var again := Register(s, db, SignupForm("Ada", "ada1", "2000-01-01"), Some(Store.Date(2000, 1, 1)));
    assert again == AlreadyLoggedIn;

    Upload(s, vision, images);
    assert s.systemMessage == Some("An intermediate lifter");
  }

  /** A greeting is answered by the chat model, a workout question by the fitness API. */
  method GreetingThenWorkout(s: Session)
    requires s.systemMessage == Some("An intermediate lifter") && s.conversation == []
    modifies s
  {
    var db := new Store.Database();
    var chat := new ChatApi((n: nat, r: ChatRequest) => "Hi there");
    var fitness := new FitnessApi((n: nat, q: FitnessQuery) => RequestFailed);

    GreetingRoutesToChat();
    var hello := SendMessage(s, db, chat, fitness, "Hello");
    assert hello == Reply(Some("Hi there"));
    assert s.conversation == [Said(User, "Hello"), Said(Assistant, "Hi there")];
    assert [Said(System, "An intermediate lifter")] + [] + [Said(User, "Hello")]
      == [Said(System, "An intermediate lifter"), Said(User, "Hello")];
    assert chat.requests == [ChatRequest(Web.ChatModel,
      [Said(System, "An intermediate lifter"), Said(User, "Hello")])];
    assert |db.messages| == 2;

    WorkoutQuestionRoutesToFitness();
    var workout := SendMessage(s, db, chat, fitness, "Any WORKOUT tips?");
    assert workout == Reply(Some(FitnessApology));
    assert |s.conversation| == 4 && s.conversation[3] == Said(Assistant, FitnessApology);
    assert |db.messages| == 3 && |chat.requests| == 1;
  }
}
