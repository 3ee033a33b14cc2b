/**
 * The Flask route handlers of app.py that change state: `register` (regular
 * form), `upload` and `send_message`, with `get_fitness_response`. A
 * handler's redirect, flash message or JSON reply is its outcome value.
 */
module Web {
  import opened Wrappers
  import opened Text
  import opened Router
  import opened Turns
  import opened Services
  import Store

  const ChatModel: string := "mistralai/mixtral-8x7b-instruct"
  const FitnessApiBaseUrl: string := "https://fitness10.p.rapidapi.com/"
  /** `f"{fitness_api_base_url}/query"`: the base already ends in a slash, so the path has two. */
  const FitnessQueryUrl: string := FitnessApiBaseUrl + "/query"
  const FitnessApology: string := "Sorry, there was an error while contacting the fitness API."

  /**
   * The per-client Flask session. A key that is absent is None; an absent
   * 'conversation' reads as the empty list (`session.get('conversation', [])`).
   */
  class Session {
    var userId: Option<nat>
    var userName: Option<string>
    var userUsername: Option<string>
    var userDob: Option<string>
    var systemMessage: Option<string>
    var conversation: seq<Turn>

    constructor ()
      ensures userId.None? && userName.None? && userUsername.None? && userDob.None?
      ensures systemMessage.None? && conversation == []
    {
      userId, userName, userUsername, userDob := None, None, None, None;
      systemMessage, conversation := None, [];
    }
  }

  /** The fields of the regular sign-up form. */
  datatype SignupForm = SignupForm(name: string, username: string, dob: string)

  datatype RegisterOutcome =
    | AlreadyLoggedIn   // redirect to home, nothing else happens
    | InvalidDob        // strptime raises ValueError: the request fails
    | WelcomeBack       // the same person registered before: redirect to home
    | UsernameTaken     // flash and redirect back to the form
    | Registered        // new row inserted: redirect to the image page

  /**
   * `register` on a POST of the regular form. `parsed` is what
   * `datetime.strptime(form.dob, '%Y-%m-%d')` gives, None when it raises.
   */
  method Register(s: Session, db: Store.Database, form: SignupForm, parsed: Option<Store.Date>)
    returns (out: RegisterOutcome)
    requires db.Valid()
    modifies s, db
    ensures db.Valid()
    ensures db.messages == old(db.messages)
    ensures s.systemMessage == old(s.systemMessage) && s.conversation == old(s.conversation)
    ensures old(s.userId).Some? ==> out == AlreadyLoggedIn && unchanged(s) && unchanged(db)
    ensures old(s.userId).None? && parsed.None? ==> out == InvalidDob && unchanged(s) && unchanged(db)
    ensures old(s.userId).None? && parsed.Some? ==>
      var exact := Store.FindExact(old(db.users), form.name, form.username, parsed.value);
      exact.Some? ==>
        var row := old(db.users)[exact.value];
        && out == WelcomeBack && db.users == old(db.users)
        && s.userId == Some(row.id) && s.userName == Some(row.name)
        && s.userUsername == Some(row.username) && s.userDob == Some(form.dob)
        && row.name == form.name && row.username == form.username && row.dob == parsed.value
    ensures old(s.userId).None? && parsed.Some? ==>
      var exact := Store.FindExact(old(db.users), form.name, form.username, parsed.value);
      var taken := Store.FindUsername(old(db.users), form.username);
      exact.None? && taken.Some? ==> out == UsernameTaken && unchanged(s) && db.users == old(db.users)
    ensures old(s.userId).None? && parsed.Some? ==>
      var exact := Store.FindExact(old(db.users), form.name, form.username, parsed.value);
      var taken := Store.FindUsername(old(db.users), form.username);
      var id := |old(db.users)| + 1;
      exact.None? && taken.None? ==>
        && out == Registered
        && db.users == old(db.users) + [Store.User(id, form.name, form.username, parsed.value)]
        && s.userId == Some(id) && s.userName == Some(form.name)
        && s.userUsername == Some(form.username) && s.userDob == Some(form.dob)
  {
    if s.userId.Some? {
      return AlreadyLoggedIn;
    }
    if parsed.None? {
      return InvalidDob;
    }
    var dob := parsed.value;
    var exact := Store.FindExact(db.users, form.name, form.username, dob);
    if exact.Some? {
      var row := db.users[exact.value];
      s.userId := Some(row.id);
      s.userName := Some(row.name);
      s.userUsername := Some(row.username);
      s.userDob := Some(form.dob);
      return WelcomeBack;
    }
    var taken := Store.FindUsername(db.users, form.username);
    if taken.Some? {
      return UsernameTaken;
    }
    var id := db.AddUser(form.name, form.username, dob);
    s.userId := Some(id.value);
    s.userName := Some(form.name);
    s.userUsername := Some(form.username);
    s.userDob := Some(form.dob);
    return Registered;
  }

  /** Python's `f"{v}"` of a session value that may be None. */
  function Show(v: Option<string>): string
  {
    match v
    case Some(text) => text
    case None => "None"
  }

  /**
   * The interpolated fields of the vision prompt: `Name: {user_info_name}`
   * where `user_info_name` already starts with "Name: ", and the username and
   * date of birth lines of the additional information.
   */
  function PromptFor(name: Option<string>, username: Option<string>, dob: Option<string>): Prompt
  {
    Prompt("Name: " + ("Name: " + Show(name)), "Username: " + Show(username) + "\nDOB: " + Show(dob) + "\n")
  }

  /**
   * `upload`: the vision model's answer for the processed images and the
   * session's profile becomes the system message, replacing any earlier one.
   * The route does not ask for a logged-in user.
   */
  method Upload(s: Session, vision: VisionApi, images: seq<ImagePart>)
    modifies s, vision
    ensures
      var prompt := PromptFor(old(s.userName), old(s.userUsername), old(s.userDob));
      var request := VisionRequest(prompt, images, prompt);
      && vision.requests == old(vision.requests) + [request]
      && s.systemMessage == Some(vision.answer(|old(vision.requests)|, request))
    ensures s.userId == old(s.userId) && s.userName == old(s.userName)
    ensures s.userUsername == old(s.userUsername) && s.userDob == old(s.userDob)
    ensures s.conversation == old(s.conversation)
  {
    var prompt := PromptFor(s.userName, s.userUsername, s.userDob);
    var text := vision.Generate(VisionRequest(prompt, images, prompt));
    s.systemMessage := Some(text);
  }

  /**
   * `get_fitness_response`: the apology when the request raises; otherwise
   * the decoded body is dropped and the function returns nothing.
   */
  method GetFitnessResponse(api: FitnessApi, message: string) returns (reply: Option<string>)
    modifies api
    ensures api.queries == old(api.queries) + [FitnessQuery(FitnessQueryUrl, message)]
    ensures api.outcome(|old(api.queries)|, FitnessQuery(FitnessQueryUrl, message)).RequestFailed?
      ==> reply == Some(FitnessApology)
    ensures api.outcome(|old(api.queries)|, FitnessQuery(FitnessQueryUrl, message)).Responded?
      ==> reply == None
  {
    var result := api.Get(FitnessQuery(FitnessQueryUrl, message));
    match result
    case RequestFailed =>
      reply := Some(FitnessApology);
    case Responded(_) =>
      reply := None;
  }

  datatype SendOutcome =
    | RedirectToImage                  // no system message yet
    | Reply(assistant: Option<string>) // the JSON `{'assistant': ...}`

  /**
   * `send_message`: refuse until a system message exists; otherwise append
   * and log the user turn, then answer it from the fitness API or from the
   * chat model, which sees the system turn followed by the whole conversation.
   */
  method SendMessage(s: Session, db: Store.Database, chat: ChatApi, fitness: FitnessApi, message: string)
    returns (out: SendOutcome)
    modifies s, db, chat, fitness
    ensures old(s.systemMessage).None? ==>
      out == RedirectToImage && unchanged(s) && unchanged(db) && unchanged(chat) && unchanged(fitness)
    ensures old(s.systemMessage).Some? ==>
      && out.Reply?
      && s.userId == old(s.userId) && s.userName == old(s.userName)
      && s.userUsername == old(s.userUsername) && s.userDob == old(s.userDob)
      && s.systemMessage == old(s.systemMessage) && db.users == old(db.users)
      && s.conversation == old(s.conversation) + [Said(User, message), Turn(Assistant, out.assistant)]
      && |db.messages| > |old(db.messages)|
      && db.messages[..|old(db.messages)| + 1] == old(db.messages) + [Store.MessageRow(User, message)]
    ensures old(s.systemMessage).Some? && IsFitnessQuery(message) ==>
      var query := FitnessQuery(FitnessQueryUrl, message);
      var result := fitness.outcome(|old(fitness.queries)|, query);
      && chat.requests == old(chat.requests)
      && fitness.queries == old(fitness.queries) + [query]
      && db.messages == old(db.messages) + [Store.MessageRow(User, message)]
      && (result.RequestFailed? ==> out == Reply(Some(FitnessApology)))
      && (result.Responded? ==> out == Reply(None))
    ensures old(s.systemMessage).Some? && !IsFitnessQuery(message) ==>
      var request := ChatRequest(ChatModel,
        [Said(System, old(s.systemMessage).value)] + old(s.conversation) + [Said(User, message)]);
      var text := chat.answer(|old(chat.requests)|, request);
      && fitness.queries == old(fitness.queries)
      && chat.requests == old(chat.requests) + [request]
      && out == Reply(Some(text))
      && db.messages == old(db.messages) + [Store.MessageRow(User, message), Store.MessageRow(Assistant, text)]
    ensures Alternating(old(s.conversation)) ==> Alternating(s.conversation)
  {
    if s.systemMessage.None? {
      return RedirectToImage;
    }
    var messages := s.conversation + [Said(User, message)];
    db.AddMessage(User, message);
    if IsFitnessQuery(message) {
      var fitnessResponse := GetFitnessResponse(fitness, message);
      messages := messages + [Turn(Assistant, fitnessResponse)];
      s.conversation := messages;
      return Reply(fitnessResponse);
    }
    assert [Said(System, s.systemMessage.value)] + messages
      == [Said(System, s.systemMessage.value)] + s.conversation + [Said(User, message)];
    var assistantMessage := chat.Complete(ChatRequest(ChatModel, [Said(System, s.systemMessage.value)] + messages));
    messages := messages + [Said(Assistant, assistantMessage)];
    s.conversation := messages;
    db.AddMessage(Assistant, assistantMessage);
    return Reply(Some(assistantMessage));
  }
}
