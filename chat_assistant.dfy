/**
 * The chatbot sidebar: the message log, the input box, and the keyword search over
 * the catalogue that composes the bot's reply.
 */
module ChatAssistant {
  import opened Seqs
  import opened Text
  import opened Domain
  import opened CourseCatalog

  datatype Sender = FromUser | FromBot

  /** A chat message; the timestamp is not modelled. */
  datatype Message = Message(id: string, content: string, sender: Sender)

  /** The one message the log starts with. */
  const Greeting := Message("1", "Hello! I can help you find courses. What are you interested in learning?", FromBot)

  const FoundPrefix := "I found these courses that might interest you:"
  const LineBreak := "<br/>"
  const NoMatchReply := "I couldn't find any courses " + "matching your query. " + "Try different keywords " + "or browse all courses."

  /** A course matches when its title or description contains the query, ignoring case. */
  function MatchesQuery(query: string): Course -> bool {
    (c: Course) => IncludesIgnoringCase(c.title, query) || IncludesIgnoringCase(c.description, query)
  }

  /** The matched courses, in catalogue order. */
  function MatchedCourses(courses: seq<Course>, query: string): (r: seq<Course>)
    ensures forall c :: c in r <==> c in courses && MatchesQuery(query)(c)
    ensures IsSubsequence(r, courses)
  {
    Filter(courses, MatchesQuery(query))
  }

  /** Every matching course is kept as often as it occurs in the catalogue, and no other course is. */
  lemma MatchedCoursesCounts(courses: seq<Course>, query: string)
    ensures forall c :: multiset(MatchedCourses(courses, query))[c] ==
                        if MatchesQuery(query)(c) then multiset(courses)[c] else 0
  {
    FilterCounts(courses, MatchesQuery(query));
  }

  /** The anchor the reply carries for one course. */
  function CourseLink(c: Course): (r: string)
    ensures Includes(r, c.id) && Includes(r, c.title)
    ensures |r| >= 4 && r[|r| - 4..] == "</a>"
  {
    var open := "<a href=\"#\" class=\"text-blue-500 hover:underline\" data-course-id=\"";
    var r := open + c.id + ("\">" + c.title + "</a>");
    IncludesMiddle(open, c.id, "\">" + c.title + "</a>");
    IncludesMiddle(open + c.id + "\">", c.title, "</a>");
    assert open + c.id + "\">" + c.title + "</a>" == r;
    r
  }

  /** One link per course, in order. */
  function Links(cs: seq<Course>): (r: seq<string>)
    ensures |r| == |cs|
    ensures forall k :: 0 <= k < |cs| ==> r[k] == CourseLink(cs[k])
  {
    seq(|cs|, k requires 0 <= k < |cs| => CourseLink(cs[k]))
  }

  /** The bot's answer to `query`. */
  function BotReply(courses: seq<Course>, query: string): (r: string)
    ensures MatchedCourses(courses, query) == [] ==> r == NoMatchReply
    ensures MatchedCourses(courses, query) != [] ==> StartsWith(r, FoundPrefix)
  {
    var matched := MatchedCourses(courses, query);
    if |matched| > 0 then FoundPrefix + LineBreak + Join(Links(matched), LineBreak)
    else NoMatchReply
  }

  /** A reply that opens with the found-courses prefix is never the fallback text. */
  lemma FoundReplyIsNotFallback(r: string)
    requires StartsWith(r, FoundPrefix)
    ensures r != NoMatchReply
  {
    assert r[2] == r[..|FoundPrefix|][2] == FoundPrefix[2] == 'f';
    assert NoMatchReply[2] == 'c';
  }

  /** The fallback text is sent exactly when no course matches. */
  lemma NoMatchReplyIffNoMatch(courses: seq<Course>, query: string)
    ensures BotReply(courses, query) == NoMatchReply <==>
            forall c :: c in courses ==> !MatchesQuery(query)(c)
  {
    var matched := MatchedCourses(courses, query);
    if matched != [] {
      FoundReplyIsNotFallback(BotReply(courses, query));
      assert matched[0] in courses && MatchesQuery(query)(matched[0]);
    } else {
      forall c | c in courses ensures !MatchesQuery(query)(c) {
        assert c !in matched;
      }
    }
  }

  /** The link of every matching course appears in the reply. */
  lemma ReplyLinksEveryMatch(courses: seq<Course>, query: string, c: Course)
    requires c in courses && MatchesQuery(query)(c)
    ensures Includes(BotReply(courses, query), CourseLink(c))
  {
    var matched := MatchedCourses(courses, query);
    assert c in matched;
    var k :| 0 <= k < |matched| && matched[k] == c;
    var links := Links(matched);
    JoinIncludesPart(links, LineBreak, k);
    IncludesExtend(Join(links, LineBreak), CourseLink(c), FoundPrefix + LineBreak, "");
    assert FoundPrefix + LineBreak + Join(links, LineBreak) + "" == BotReply(courses, query);
  }

  /** A run of user messages each answered by one bot message. */
  predicate Exchanges(ms: seq<Message>)
    decreases |ms|
  {
    ms == [] || (|ms| >= 2 && ms[0].sender == FromUser && ms[1].sender == FromBot && Exchanges(ms[2..]))
  }

  /** The log: the greeting, then exchanges. */
  predicate IsConversation(ms: seq<Message>) {
    |ms| >= 1 && ms[0] == Greeting && Exchanges(ms[1..])
  }

  lemma {:induction false} ExchangesAppend(ms: seq<Message>, u: Message, b: Message)
    requires Exchanges(ms) && u.sender == FromUser && b.sender == FromBot
    ensures Exchanges(ms + [u, b])
    decreases |ms|
  {
    if ms != [] {
      ExchangesAppend(ms[2..], u, b);
      assert (ms + [u, b])[2..] == ms[2..] + [u, b];
    } else {
      assert ([u, b])[2..] == [];
    }
  }

  /** Answering a user message keeps the log a conversation. */
  lemma ConversationExtend(ms: seq<Message>, u: Message, b: Message)
    requires IsConversation(ms) && u.sender == FromUser && b.sender == FromBot
    ensures IsConversation(ms + [u, b])
  {
    ExchangesAppend(ms[1..], u, b);
    assert (ms + [u, b])[1..] == ms[1..] + [u, b];
  }

  function IsSentBy(s: Sender): Message -> bool {
    (m: Message) => m.sender == s
  }

  /** Exchanges hold as many bot messages as user messages. */
  lemma {:induction false} ExchangesBalanced(ms: seq<Message>)
    requires Exchanges(ms)
    ensures Count(ms, IsSentBy(FromBot)) == Count(ms, IsSentBy(FromUser))
    decreases |ms|
  {
    if ms != [] {
      ExchangesBalanced(ms[2..]);
      assert ms == [ms[0], ms[1]] + ms[2..];
      CountAppend([ms[0], ms[1]], ms[2..], IsSentBy(FromBot));
      CountAppend([ms[0], ms[1]], ms[2..], IsSentBy(FromUser));
      assert [ms[0], ms[1]] == [ms[0]] + [ms[1]];
      CountAppend([ms[0]], [ms[1]], IsSentBy(FromBot));
      CountAppend([ms[0]], [ms[1]], IsSentBy(FromUser));
    }
  }

  /** Past the greeting, every user message has exactly one bot reply. */
  lemma ConversationBalanced(ms: seq<Message>)
    requires IsConversation(ms)
    ensures Count(ms, IsSentBy(FromBot)) == Count(ms, IsSentBy(FromUser)) + 1
  {
    assert ms == [ms[0]] + ms[1..];
    CountAppend([ms[0]], ms[1..], IsSentBy(FromBot));
    CountAppend([ms[0]], ms[1..], IsSentBy(FromUser));
    ExchangesBalanced(ms[1..]);
  }

  /** The sidebar's state. It calls `useCourses` itself, so it owns a catalogue of its own. */
  class ChatSession {
    var messages: seq<Message>
    var input: string
    const catalog: CourseRepository

    ghost predicate Valid()
      reads this
    {
      IsConversation(messages)
    }

    constructor ()
      ensures Valid() && messages == [Greeting] && input == ""
      ensures fresh(catalog) && catalog.courses == MockCourses
    {
      messages := [Greeting];
      input := "";
      catalog := new CourseRepository();
    }

    /** Typing into the box. */
    method SetInput(text: string)
      modifies this`input
      ensures input == text
    {
      input := text;
    }

    /**
     * `handleSendMessage`, with the delayed reply made part of the same step: blank
     * input does nothing; otherwise the raw input is logged as the user's message, the
     * box is cleared, and the reply composed from the untrimmed input is logged.
     * `now` and `replyNow` are the clock readings that become the two message ids.
     */
    method SendMessage(now: nat, replyNow: nat)
      requires Valid()
      modifies this`messages, this`input, catalog`loading
      ensures Valid()
      ensures catalog.courses == old(catalog.courses)
      ensures IsBlank(old(input)) ==> messages == old(messages) && input == old(input)
      ensures !IsBlank(old(input)) ==>
        input == "" &&
        messages == old(messages) + [
          Message(NatToString(now), old(input), FromUser),
          Message(NatToString(replyNow), BotReply(catalog.courses, old(input)), FromBot)]
    {
      if IsBlank(input) {
        return;
      }
      var query := input;
      var sent := Message(NatToString(now), query, FromUser);
      input := "";
      var courses := catalog.GetCourses();
      assert courses == old(catalog.courses) && query == old(input);
      var text := BotReply(courses, query);
      var reply := Message(NatToString(replyNow), text, FromBot);
      ConversationExtend(messages, sent, reply);
      messages := messages + [sent, reply];
    }
  }
}
