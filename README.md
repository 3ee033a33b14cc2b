# Fitmate chat core in Dafny

Fitmate is a small Flask application. A user registers with a name, a
username and a date of birth. The user uploads photos, and a vision model
turns them, together with the profile, into a "system message" that seeds a
chat. Chat messages go to a hosted chat model. A message that mentions
"workout", "diet" or "fitness" goes to a fitness REST API instead. A separate
script, `cli.py`, runs a terminal chat with a fixed persona.

This project models the stateful core of both programs:

- the keyword router of `send_message` (`router.dfy`), with ASCII
  lower-casing and Python's substring test `in` (`text.dfy`);
- the `usr` and `message` tables as in-memory sequences, with the unique
  username invariant (`store.dfy`);
- the Flask session as a `Session` object and the handlers `register`
  (regular form), `upload`, `send_message` and `get_fitness_response`
  (`web.dfy`);
- the terminal chat loop of `cli.py` (`cli.dfy`).

Every external service is an oracle object (`services.dfy`). An oracle keeps
an append-only log of the requests it received. Its answer is a fixed
function of the request and of the number of earlier requests. "The backend
is not called" therefore means "its log is unchanged". `scenarios.dfy` is a
client that walks one session through the handlers using only their
contracts.

Points where the code differs from what a reader might expect, modelled as
the code does it:

- On the fitness path, a successful API call falls off the end of
  `get_fitness_response`. The reply, and the assistant turn appended to the
  conversation, hold Python's None. A turn's content is therefore
  `Option<string>`.
- On the fitness path only the user message is written to the `message`
  table. The assistant turn is not. Only the general path logs both sides.
- `upload` does not check that anyone is logged in. A missing profile field
  is rendered as the text "None" in the prompt. The name field reads
  "Name: Name: <name>", because the interpolated value already carries the
  prefix.
- `upload` replaces the system message but keeps the conversation.
- On a "welcome back" login the session keeps the date of birth as typed in
  the form, not the stored date.
- The fitness URL has a doubled slash ("...rapidapi.com//query"), because the
  base URL already ends in "/".

## Model

| member | source | states |
|---|---|---|
| Text.ContainsIff | app.py:230 | the left-to-right substring scan succeeds exactly when the keyword occurs at some position of the text (both directions) |
| Text.LowerIdempotent | app.py:230 | lower-casing twice is the same as lower-casing once |
| Router.IsFitnessQuery | app.py:229-230 | a message goes to the fitness API exactly when "workout", "diet" or "fitness" occurs in its lower-cased text |
| Router.RouteIgnoresCase | app.py:230 | lower-casing a message first does not change where it is routed |
| Router.KeywordAnywhereRoutesToFitness | app.py:230 | any text with a keyword anywhere in it, whatever surrounds it, is routed to the fitness API |
| Router.WorkoutQuestionRoutesToFitness | app.py:230 | "Any WORKOUT tips?" is routed to the fitness API despite the upper case |
| Router.GreetingRoutesToChat | app.py:230 | "Hello" is routed to the general chat model |
| Store.First | app.py:101-112 | `filter_by(...).first()` returns the first row that matches, and None only when no row matches |
| Store.ExactMatchHoldsUsername | app.py:101-116 | with unique usernames, the row that matches name, username and dob is the row found by username alone |
| Store.InsertKeepsUnique | app.py:112-121 | inserting a username that no row holds keeps usernames unique |
| Store.Database.constructor | app.py:46-62 | the tables start empty and satisfy the table invariant |
| Store.Database.AddUser | app.py:118-121 | a free username gets a new row with the next id; a taken one is refused by the unique constraint and the table is unchanged; the invariant is kept |
| Store.Database.AddMessage | app.py:224-227 | one `message` row is appended and the user table is unchanged |
| Services.ChatApi.Complete | app.py:237-241 | the request is logged and the reply is the oracle's answer to it |
| Services.FitnessApi.Get | app.py:260-263 | the query is logged and its outcome is the oracle's |
| Services.VisionApi.Generate | app.py:200-201 | the request is logged and the reply is the oracle's answer to it |
| Web.Register | app.py:64-128 | a logged-in session is a no-op; a bad date changes nothing; an exact (name, username, dob) match logs in as that row without inserting; otherwise a taken username is rejected with the table unchanged; otherwise one row is inserted and the session is bound to it; usernames stay unique |
| Web.Upload | app.py:159-210 | the vision model gets the profile prompt and the images; its answer overwrites the system message; profile and conversation are unchanged |
| Web.GetFitnessResponse | app.py:253-267 | the query is sent once; a request exception yields the fixed apology; a response yields no value |
| Web.SendMessage | app.py:213-250 | with no system message nothing changes and the outcome is the redirect; otherwise the user turn is appended and logged first; fitness route: the chat model is not called, the fitness result is the assistant turn and no assistant row is logged; general route: the chat model gets the system turn followed by the whole conversation with the new user turn, and its answer is appended and logged; the conversation grows by user then assistant and keeps its alternating shape |
| Cli.QuitIsTheWholeLine | cli.py:28-29 | "QuIt" ends the chat; "quit now" and " quit" do not |
| Cli.BeforeQuit | cli.py:23-29 | the lines answered are exactly the prefix of the input before the first line whose lower-cased form is "quit" |
| Cli.BeforeQuitStopsAt | cli.py:23-29 | a loop stopping at the first "quit" line, or at the end of input, has answered exactly the lines before that quit |
| Cli.Converse | cli.py:31-45 | each answered line adds two turns, and the starting transcript stays a prefix |
| Cli.ConversePrefix | cli.py:31-45 | the transcript after the first k lines is a prefix of the transcript after all lines |
| Cli.ConverseSnoc | cli.py:31-45 | one more line appends its user turn and then the model's answer to the transcript that already includes that user turn |
| Cli.ConverseAt | cli.py:32-45 | line j is the user turn at position 1 + 2j, and the following turn is the model's answer to the transcript up to that user turn |
| Cli.TranscriptShape | cli.py:17-45 | after k lines the transcript has 1 + 2k turns: the system turn, then user and assistant alternating |
| Cli.Asked | cli.py:32-38 | one chat request per answered line, in order |
| Cli.AskedAt | cli.py:32-38 | request j carries the transcript up to and including line j's user turn, the same prefix whose answer becomes the next assistant turn |
| Cli.Chat | cli.py:15-45 | the loop returns the transcript for the lines before "quit", and the model's request log grows by exactly the requests for those lines; a "quit" line and the lines after it are not answered |
| Scenarios.SignUp | app.py:159-218 | a session that sends before uploading is redirected; after registering and uploading it has a system message and an empty conversation |

## Left out

- The Google sign-up branch of `register` (app.py:70-91): an external authentication library. It also builds a `User` with an `email` field that the table does not have.
- The GET branches of `register` and `image`, the `home` and `image` routes, `render_template`, `flash` and `redirect`: presentation only. Each handler's result is an outcome value instead.
- Web.Register: the 100-character width of `usr.name` and `usr.username` (app.py:55-56) is not enforced. A longer name or username is registered; the model assumes a backend that does not enforce the width, such as SQLite. On one that does, the commit at app.py:121 fails with a server error, and no row is inserted and no session field is set.
- SQLAlchemy and `db.create_all`: the tables are in-memory sequences. Ids are 1, 2, 3, ... in insertion order, which holds for a table that never deletes rows. The `system_message` column of `usr` is never written by the code and is not modelled.
- `datetime.strptime`: the parsed date is a parameter of `Register`, with None standing for the ValueError.
- A missing form field (`request.form[...]` raising a 400 error): not modelled.
- `process_images` and `get_gemini_response` live in `scripts/helper.py`, which is not part of this model. The processed images are an input of `Upload`, and the vision call is an oracle.
- The prose of the vision prompt template (app.py:174-198): only its interpolated fields are modelled.
- The chat, vision and fitness clients: each is an oracle. Exceptions raised by the chat or vision client, and a chat reply whose content is None, are not modelled. Those requests would fail with a server error. An undecodable fitness body is the request-exception case (`RequestFailed`), as it is with requests 2.27 and later, where `response.json()` raises a `RequestException`. With older versions it raises a plain ValueError, which escapes `get_fitness_response`: the request fails with a server error after the user row is logged. The model does not capture that case.
- Python's full Unicode `str.lower()`: only ASCII letters are folded. For example, Python folds the Kelvin sign to "k", so Python would route "WORKOUT", and this model would not.
- `input()` and `print` in cli.py, and the two `print` calls of `upload` (app.py:204-205), which only echo the vision answer to the terminal. In cli.py the typed lines are a sequence. Running out of lines ends the loop, where Python would raise EOFError. The persona text of the system turn is a parameter.
- Secrets, environment variables, API keys and request headers (app.py:17-43, cli.py:5-11).
- Concurrent requests on one session, and the Flask cookie's serialisation: each handler runs alone on its session.
