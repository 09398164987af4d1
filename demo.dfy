/**
 * The demo sub-command of internal/demo/command.go: either one HTTP GET of
 * the target link, whose body is printed, or an interactive browser session
 * that navigates to the current link, reads a line, and adopts the line as
 * the new link when it looks like one, until the input ends.
 *
 * Standard input is an `Input` value (the lines `ReadString('\n')` returns,
 * then how reading ends), the HTTP answer a `Fetch` value, and every call to
 * the outside is recorded in the `events` trace of the `Demo` object.
 */
module Demo {
  import opened Base
  import opened Strings

  /** The state of the embedded chromedp wrapper: never opened, contexts live, or contexts cancelled. */
  datatype ChromeState = Unallocated | Open | Cancelled

  /** An outside call of the demo. */
  datatype Event =
    | HttpGet(url: string)       // Client.Get
    | Printed(text: string)      // fmt.Println of the body
    | Navigate(url: string)      // Chrome.Navigate
    | InvalidLink(text: string)  // the "invalid link" message for a rejected line

  /** How reading standard input ends once the complete lines are consumed. */
  datatype ReadEnd = Eof | ReadFailed(error: Error)

  /** Standard input: the lines read, in order, then how reading ends. */
  datatype Input = Input(lines: seq<string>, end: ReadEnd)

  /** The answer to the HTTP GET: the body, or the error of the request or of reading the body. */
  datatype Fetch = Fetched(body: string) | GetFailed(error: Error) | BodyFailed(error: Error)

  const HttpAction := "http"
  const ChromeAction := "chrome"

  /** A line adopted as the next link: it starts with a web scheme. */
  predicate Accepted(text: string)
  {
    HasPrefix(text, "http://") || HasPrefix(text, "https://")
  }

  /** The link after the given lines have been read: the last accepted (trimmed) line, or the initial link. */
  function LinkAfter(initial: string, lines: seq<string>): (link: string)
    ensures link == initial || Accepted(link)
  {
    if lines == [] then initial
    else
      var text := TrimSpace(lines[|lines| - 1]);
      if Accepted(text) then text else LinkAfter(initial, lines[..|lines| - 1])
  }

  /** The calls made while reading the given lines: a navigation before each read, a message for each rejected line. */
  function Transcript(initial: string, lines: seq<string>): (events: seq<Event>)
    ensures |lines| <= |events| <= 2 * |lines|
  {
    if lines == [] then []
    else
      var front := lines[..|lines| - 1];
      var text := TrimSpace(lines[|lines| - 1]);
      Transcript(initial, front) + [Navigate(LinkAfter(initial, front))]
        + (if Accepted(text) then [] else [InvalidLink(text)])
  }

  /** The whole browser session: the reads of every line, then the navigation before the read that ends the input. */
  function ChromeSession(initial: string, lines: seq<string>): (events: seq<Event>)
    ensures |events| >= 1 && events[|events| - 1] == Navigate(LinkAfter(initial, lines))
  {
    Transcript(initial, lines) + [Navigate(LinkAfter(initial, lines))]
  }

  /** The error the browser session ends with: none at end of input, a wrapped read error otherwise. */
  function ReadError(end: ReadEnd): (err: Option<Error>)
    ensures err.None? <==> end.Eof?
  {
    match end
    case Eof => None
    case ReadFailed(e) => Some(Error("failed to read the command: " + e.message))
  }

  /** The calls of the HTTP action: the GET, and the printed body when it could be read. */
  function HttpEvents(link: string, fetch: Fetch): seq<Event>
  {
    [HttpGet(link)] + (if fetch.Fetched? then [Printed(fetch.body)] else [])
  }

  /** The error of the HTTP action: that of the request or of reading the body. */
  function HttpError(fetch: Fetch): (err: Option<Error>)
    ensures err.None? <==> fetch.Fetched?
  {
    match fetch
    case Fetched(_) => None
    case GetFailed(e) => Some(e)
    case BodyFailed(e) => Some(e)
  }

  /** The error for an action that is neither `http` nor `chrome`. */
  function UnknownAction(action: string): Error
  {
    Error("unknown action: " + action)
  }

  /** The urls navigated to, in order, among the calls. */
  function Navigations(events: seq<Event>): seq<string>
  {
    if events == [] then []
    else
      var last := events[|events| - 1];
      Navigations(events[..|events| - 1]) + (if last.Navigate? then [last.url] else [])
  }

  lemma {:induction false} NavigationsAppend(a: seq<Event>, b: seq<Event>)
    ensures Navigations(a + b) == Navigations(a) + Navigations(b)
    decreases |b|
  {
    if b == [] {
      assert a + b == a;
    } else {
      var front := b[..|b| - 1];
      assert (a + b)[..|a + b| - 1] == a + front;
      NavigationsAppend(a, front);
    }
  }

  /** The calls made for one more line: the navigation before its read, then the message if it is rejected. */
  lemma TranscriptSnoc(initial: string, lines: seq<string>, i: nat)
    requires i < |lines|
    ensures Accepted(TrimSpace(lines[i])) ==>
      Transcript(initial, lines[..i + 1]) == Transcript(initial, lines[..i]) + [Navigate(LinkAfter(initial, lines[..i]))]
    ensures !Accepted(TrimSpace(lines[i])) ==>
      Transcript(initial, lines[..i + 1]) ==
        Transcript(initial, lines[..i]) + [Navigate(LinkAfter(initial, lines[..i]))] + [InvalidLink(TrimSpace(lines[i]))]
    ensures LinkAfter(initial, lines[..i + 1]) ==
      if Accepted(TrimSpace(lines[i])) then TrimSpace(lines[i]) else LinkAfter(initial, lines[..i])
  {
    assert lines[..i + 1][..i] == lines[..i];
  }

  /** The reads of `n` lines navigate `n` times, the `k`-th time to the link adopted from the first `k` lines. */
  lemma {:induction false} TranscriptNavigations(initial: string, lines: seq<string>)
    ensures |Navigations(Transcript(initial, lines))| == |lines|
    ensures forall k :: 0 <= k < |lines| ==> Navigations(Transcript(initial, lines))[k] == LinkAfter(initial, lines[..k])
  {
    if lines != [] {
      var front := lines[..|lines| - 1];
      var text := TrimSpace(lines[|lines| - 1]);
      var rejected: seq<Event> := if Accepted(text) then [] else [InvalidLink(text)];
      var visit := [Navigate(LinkAfter(initial, front))];
      TranscriptNavigations(initial, front);
      assert Transcript(initial, lines) == Transcript(initial, front) + visit + rejected;
      NavigationsAppend(Transcript(initial, front) + visit, rejected);
      NavigationsAppend(Transcript(initial, front), visit);
      assert Navigations(visit) == [LinkAfter(initial, front)] by {
        assert visit[..0] == [];
      }
      assert Navigations(rejected) == [] by {
        if rejected != [] {
          assert rejected[..0] == [];
        }
      }
      forall k | 0 <= k < |lines|
        ensures Navigations(Transcript(initial, lines))[k] == LinkAfter(initial, lines[..k])
      {
        if k < |front| {
          assert lines[..k] == front[..k];
        }
      }
    }
  }

  /**
   * A session over `n` lines navigates exactly `n + 1` times, and navigation
   * `k` goes to the link adopted from the first `k` lines.
   */
  lemma SessionNavigations(initial: string, lines: seq<string>)
    ensures |Navigations(ChromeSession(initial, lines))| == |lines| + 1
    ensures forall k :: 0 <= k <= |lines| ==> Navigations(ChromeSession(initial, lines))[k] == LinkAfter(initial, lines[..k])
  {
    var last := [Navigate(LinkAfter(initial, lines))];
    TranscriptNavigations(initial, lines);
    NavigationsAppend(Transcript(initial, lines), last);
    assert Navigations(last) == [LinkAfter(initial, lines)] by {
      assert last[..0] == [];
    }
    forall k | 0 <= k <= |lines|
      ensures Navigations(ChromeSession(initial, lines))[k] == LinkAfter(initial, lines[..k])
    {
      if k == |lines| {
        assert lines[..k] == lines;
      }
    }
  }

  /** When no line is accepted the link never changes. */
  lemma {:induction false} NoAcceptedLineKeepsLink(initial: string, lines: seq<string>)
    requires forall j :: 0 <= j < |lines| ==> !Accepted(TrimSpace(lines[j]))
    ensures LinkAfter(initial, lines) == initial
  {
    if lines != [] {
      NoAcceptedLineKeepsLink(initial, lines[..|lines| - 1]);
    }
  }

  /** The link is the last accepted line: later rejected lines leave it alone. */
  lemma {:induction false} LastAcceptedLineWins(initial: string, lines: seq<string>, k: nat)
    requires k < |lines| && Accepted(TrimSpace(lines[k]))
    requires forall j :: k < j < |lines| ==> !Accepted(TrimSpace(lines[j]))
    ensures LinkAfter(initial, lines) == TrimSpace(lines[k])
  {
    if k < |lines| - 1 {
      var front := lines[..|lines| - 1];
      assert front[k] == lines[k];
      LastAcceptedLineWins(initial, front, k);
    }
  }

  /** A session that starts on a web link only ever navigates to web links. */
  lemma {:induction false} LinkStaysWeb(initial: string, lines: seq<string>)
    requires Accepted(initial)
    ensures Accepted(LinkAfter(initial, lines))
  {
    if lines != [] {
      LinkStaysWeb(initial, lines[..|lines| - 1]);
    }
  }

  /** The demo command: the target link, the action, the two clients it may use, and the trace of calls. */
  class Demo {
    const link: string
    const action: string

    /** Whether the HTTP client is set. */
    var client: bool
    var chrome: ChromeState
    /** Every outside call made so far, oldest first. */
    var events: seq<Event>

    constructor (link: string, action: string)
      ensures this.link == link && this.action == action
      ensures !client && chrome == Unallocated && events == []
    {
      this.link := link;
      this.action := action;
      client := false;
      chrome := Unallocated;
      events := [];
    }

    /** `Prologue`: open only the client the action uses; any other action opens nothing. */
    method Prologue()
      modifies this`client, this`chrome
      ensures action == HttpAction ==> client && chrome == old(chrome)
      ensures action == ChromeAction ==> chrome == Open && client == old(client)
      ensures action != HttpAction && action != ChromeAction ==> client == old(client) && chrome == old(chrome)
    {
      match action
      case "http" => client := true;
      case "chrome" => chrome := Open;
      case _ =>
    }

    /**
     * `Epilogue`: close only the client the action uses. Cancelling the
     * browser calls the cancel functions `Prologue` stored, so it needs them.
     */
    method Epilogue()
      requires action == ChromeAction ==> chrome != Unallocated
      modifies this`client, this`chrome
      ensures action == HttpAction ==> !client && chrome == old(chrome)
      ensures action == ChromeAction ==> chrome == Cancelled && client == old(client)
      ensures action != HttpAction && action != ChromeAction ==> client == old(client) && chrome == old(chrome)
    {
      match action
      case "http" => client := false;
      case "chrome" => chrome := Cancelled;
      case _ =>
    }

    /**
     * `Execute`: the HTTP GET and print, the browser loop, or the
     * unknown-action error. The returned data is always nil, so only the
     * error is returned here.
     */
    method Execute(fetch: Fetch, input: Input) returns (err: Option<Error>)
      requires action == HttpAction ==> client
      requires action == ChromeAction ==> chrome != Unallocated
      modifies this`events
      ensures action == HttpAction ==> events == old(events) + HttpEvents(link, fetch) && err == HttpError(fetch)
      ensures action == ChromeAction ==>
        events == old(events) + ChromeSession(link, input.lines) && err == ReadError(input.end)
      ensures action != HttpAction && action != ChromeAction ==>
        events == old(events) && err == Some(UnknownAction(action))
    {
      if action == HttpAction {
        events := events + [HttpGet(link)];
        match fetch {
          case GetFailed(e) =>
            err := Some(e);
            return;
          case BodyFailed(e) =>
            err := Some(e);
            return;
          case Fetched(body) =>
            events := events + [Printed(body)];
            err := None;
        }
      } else if action == ChromeAction {
        err := Browse(input);
      } else {
        err := Some(Error("unknown action: " + action));
      }
    }

    /** The `chrome` branch of `Execute`: navigate, read a line, adopt it if it is a web link; stop when input ends. */
    method Browse(input: Input) returns (err: Option<Error>)
      modifies this`events
      ensures events == old(events) + ChromeSession(link, input.lines)
      ensures err == ReadError(input.end)
    {
      var lines := input.lines;
      var current := link;
      var i := 0;
      while true
        invariant 0 <= i <= |lines|
        invariant current == LinkAfter(link, lines[..i])
        invariant events == old(events) + Transcript(link, lines[..i])
        decreases |lines| - i
      {
        events := events + [Navigate(current)];

        if i == |lines| {
          assert lines[..i] == lines;
          AppendAssociates(old(events), Transcript(link, lines), [Navigate(current)]);
          match input.end
          case Eof =>
            err := None;
            return;
          case ReadFailed(e) =>
            err := Some(Error("failed to read the command: " + e.message));
            return;
        }

        var text := TrimSpace(lines[i]);
        TranscriptSnoc(link, lines, i);
        ghost var done := Transcript(link, lines[..i]) + [Navigate(current)];
        AppendAssociates(old(events), Transcript(link, lines[..i]), [Navigate(current)]);
        if HasPrefix(text, "http://") || HasPrefix(text, "https://") {
          current := text;
        } else {
          events := events + [InvalidLink(text)];
          AppendAssociates(old(events), done, [InvalidLink(text)]);
        }
        i := i + 1;
      }
    }
  }
}
