/**
 * The chat service's own rules around the orchestrator: how a message is cut
 * down before it is kept in conversation memory, how remembered messages
 * become the chat history handed to the orchestrator, how a session's history
 * is listed, and how a result is rendered as text.
 */
module ChatApi {
  import opened Wrappers
  import opened Text
  import opened Sorting
  import opened Models
  import opened Oracles

  // ---------------------------------------------------------------------------
  // Keeping a message in conversation memory
  // ---------------------------------------------------------------------------

  /** `MAX_ZEP_MESSAGE_LENGTH`: the longest content kept unchanged. */
  const MaxMessageLength: nat := 2400

  /** What replaces the cut-off end of a long message. */
  const TruncationMarker: string := "... [content truncated]"

  /** A metadata value: the truncation flag, or a text such as the timestamp. */
  datatype MetaValue = Flag(flag: bool) | Str(text: string)

  /** Python truthiness of a metadata value. */
  predicate Truthy(v: MetaValue)
  {
    match v
    case Flag(b) => b
    case Str(s) => s != ""
  }

  /** A message in conversation memory; its metadata may be missing. */
  datatype MemoryMessage = MemoryMessage(role: string, roleType: string, content: string,
                                         metadata: Option<map<string, MetaValue>>)

  /**
   * The content kept for a message: the message itself up to the limit, and
   * otherwise its first 2300 characters followed by the marker.
   */
  function KeptContent(content: string): (kept: string)
    ensures |kept| <= MaxMessageLength
    ensures kept == content <==> |content| <= MaxMessageLength
    ensures kept != content ==> kept == content[..MaxMessageLength - 100] + TruncationMarker
  {
    if |content| > MaxMessageLength then content[..MaxMessageLength - 100] + TruncationMarker else content
  }

  /** `metadata.get('truncated', False)` is truthy. */
  predicate IsTruncated(m: MemoryMessage)
  {
    m.metadata.Some? && "truncated" in m.metadata.value && Truthy(m.metadata.value["truncated"])
  }

  /**
   * The message `add_message_to_zep` hands to memory: the kept content, the
   * timestamp, and the truncation flag exactly when the content was cut.
   */
  function StoredMessage(role: string, roleType: string, content: string, timestamp: string): (m: MemoryMessage)
    ensures m.role == role && m.roleType == roleType && m.content == KeptContent(content)
    ensures m.metadata.Some? && "timestamp" in m.metadata.value && m.metadata.value["timestamp"] == Str(timestamp)
    ensures IsTruncated(m) <==> |content| > MaxMessageLength
  {
    if |content| > MaxMessageLength then
      MemoryMessage(role, roleType, content[..MaxMessageLength - 100] + TruncationMarker,
                    Some(map["timestamp" := Str(timestamp), "truncated" := Flag(true)]))
    else
      MemoryMessage(role, roleType, content, Some(map["timestamp" := Str(timestamp)]))
  }

  /** A stored message is flagged exactly when what was stored differs from what was given. */
  lemma TruncationFlagged(role: string, roleType: string, content: string, timestamp: string)
    ensures IsTruncated(StoredMessage(role, roleType, content, timestamp)) <==>
            StoredMessage(role, roleType, content, timestamp).content != content
  {
  }

  /** What handing messages to memory does: they are accepted, or an exception is raised. */
  datatype StoreOutcome = Accepted | Raised(reason: string)

  /**
   * `add_message_to_zep`: hands memory the one stored message and reports
   * true exactly when memory accepted it, false on any exception.
   */
  function AddMessage(store: (string, seq<MemoryMessage>) -> StoreOutcome, sessionId: string,
                      role: string, roleType: string, content: string, timestamp: string): (ok: bool)
    ensures ok <==> store(sessionId, [StoredMessage(role, roleType, content, timestamp)]) == Accepted
  {
    var outcome := store(sessionId, [StoredMessage(role, roleType, content, timestamp)]);
    match outcome
    case Accepted => true
    case Raised(_) => false
  }

  // ---------------------------------------------------------------------------
  // The chat history handed to the orchestrator
  // ---------------------------------------------------------------------------

  /** What reading a session's memory gives: its messages, no messages, or an exception. */
  datatype MemoryRead = Messages(messages: seq<MemoryMessage>) | NoMessages | ReadFailed(reason: string)

  /** The chat turn a remembered message becomes. */
  function TurnOf(m: MemoryMessage): ChatTurn
  {
    ChatTurn(if m.roleType == "user" then "user" else "assistant", m.content)
  }

  /** One chat turn per remembered message, in order. */
  function HistoryOf(ms: seq<MemoryMessage>): (h: seq<ChatTurn>)
    ensures |h| == |ms|
  {
    if ms == [] then [] else HistoryOf(ms[..|ms| - 1]) + [TurnOf(ms[|ms| - 1])]
  }

  /**
   * The turn at each position keeps the content of the message at the same
   * position; its role is "user" for a user message and "assistant" otherwise.
   */
  lemma {:induction false} HistoryPointwise(ms: seq<MemoryMessage>, k: nat)
    requires k < |ms|
    ensures HistoryOf(ms)[k].content == ms[k].content
    ensures HistoryOf(ms)[k].role == "user" <==> ms[k].roleType == "user"
    ensures HistoryOf(ms)[k].role == "user" || HistoryOf(ms)[k].role == "assistant"
  {
    if k < |ms| - 1 {
      HistoryPointwise(ms[..|ms| - 1], k);
    }
  }

  /**
   * An exchange stored by the form chat endpoint, the prompt as a user message
   * and the answer text as an assistant message, comes back as the two turns
   * with the kept contents.
   */
  lemma ExchangeRoundTrip(prompt: string, response: string, t1: string, t2: string)
    ensures HistoryOf([StoredMessage("user", "user", prompt, t1), StoredMessage("assistant", "assistant", response, t2)]) ==
            [ChatTurn("user", KeptContent(prompt)), ChatTurn("assistant", KeptContent(response))]
    ensures |prompt| <= MaxMessageLength && |response| <= MaxMessageLength ==>
            HistoryOf([StoredMessage("user", "user", prompt, t1), StoredMessage("assistant", "assistant", response, t2)]) ==
            [ChatTurn("user", prompt), ChatTurn("assistant", response)]
  {
    var ms := [StoredMessage("user", "user", prompt, t1), StoredMessage("assistant", "assistant", response, t2)];
    assert ms[..1] == [ms[0]];
    assert [ms[0]][..0] == [];
    assert "assistant" != "user" by {
      assert |"assistant"| != |"user"|;
    }
  }

  /**
   * The history both chat endpoints build before calling the orchestrator:
   * the turns of the remembered messages, and none when memory has no
   * messages or cannot be read.
   */
  method ChatHistory(read: MemoryRead) returns (history: seq<ChatTurn>)
    ensures read.Messages? ==> history == HistoryOf(read.messages)
    ensures !read.Messages? ==> history == []
  {
    history := [];
    if !read.Messages? {
      return;
    }
    var messages := read.messages;
    var i := 0;
    while i < |messages|
      invariant 0 <= i <= |messages|
      invariant history == HistoryOf(messages[..i])
    {
      var msg := messages[i];
      history := history + [ChatTurn(if msg.roleType == "user" then "user" else "assistant", msg.content)];
      assert messages[..i + 1][..i] == messages[..i];
      i := i + 1;
    }
    assert messages[..|messages|] == messages;
  }

  // ---------------------------------------------------------------------------
  // Listing a session's history
  // ---------------------------------------------------------------------------

  /** Whose message an entry holds: the `user_message` key or the `ai_response` key. */
  datatype Speaker = UserMessage | AiResponse

  /** One entry of the listed history. */
  datatype HistoryEntry = HistoryEntry(speaker: Speaker, message: string, truncated: bool, timestamp: MetaValue)

  /** The message carries a timestamp in its metadata. */
  predicate HasTimestamp(m: MemoryMessage)
  {
    m.metadata.Some? && "timestamp" in m.metadata.value
  }

  /**
   * The entry for one message: who spoke, the content, the truncation flag
   * only when the metadata sets it, and the stored timestamp or else `now`.
   */
  function EntryOf(m: MemoryMessage, now: string): (e: HistoryEntry)
    ensures e.speaker == UserMessage <==> m.roleType == "user"
    ensures e.message == m.content
    ensures e.truncated <==> IsTruncated(m)
    ensures HasTimestamp(m) ==> e.timestamp == m.metadata.value["timestamp"]
    ensures !HasTimestamp(m) ==> e.timestamp == Str(now)
  {
    HistoryEntry(if m.roleType == "user" then UserMessage else AiResponse, m.content, IsTruncated(m),
                 if HasTimestamp(m) then m.metadata.value["timestamp"] else Str(now))
  }

  /**
   * A message stored by `add_message_to_zep` is listed with its kept content,
   * flagged exactly when it was too long, and with the time it was stored.
   */
  lemma StoredMessageListed(role: string, roleType: string, content: string, timestamp: string, now: string)
    ensures EntryOf(StoredMessage(role, roleType, content, timestamp), now) ==
            HistoryEntry(if roleType == "user" then UserMessage else AiResponse, KeptContent(content),
                         |content| > MaxMessageLength, Str(timestamp))
  {
    var m := StoredMessage(role, roleType, content, timestamp);
    assert HasTimestamp(m);
  }

  /** One entry per message, in order; the clock is read once per entry. */
  function Entries(ms: seq<MemoryMessage>, now: nat -> string): (es: seq<HistoryEntry>)
    ensures |es| == |ms|
  {
    if ms == [] then [] else Entries(ms[..|ms| - 1], now) + [EntryOf(ms[|ms| - 1], now(|ms| - 1))]
  }

  /** The entry at each position is the one of the message at the same position. */
  lemma {:induction false} EntriesPointwise(ms: seq<MemoryMessage>, now: nat -> string, k: nat)
    requires k < |ms|
    ensures Entries(ms, now)[k] == EntryOf(ms[k], now(k))
  {
    if k < |ms| - 1 {
      EntriesPointwise(ms[..|ms| - 1], now, k);
    }
  }

  const HistoryErrorPrefix: string := "Error retrieving session history: "

  /**
   * `get_session_history`: the entries of the remembered messages, none when
   * memory has no messages, and an error naming the exception when memory
   * cannot be read.
   */
  method SessionHistory(read: MemoryRead, now: nat -> string) returns (r: Result<seq<HistoryEntry>, string>)
    ensures read.Messages? ==> r == Success(Entries(read.messages, now))
    ensures read.NoMessages? ==> r == Success([])
    ensures read.ReadFailed? ==> r == Failure(HistoryErrorPrefix + read.reason)
  {
    if read.ReadFailed? {
      return Failure(HistoryErrorPrefix + read.reason);
    }
    var formatted: seq<HistoryEntry> := [];
    if read.Messages? {
      var messages := read.messages;
      var i := 0;
      while i < |messages|
        invariant 0 <= i <= |messages|
        invariant formatted == Entries(messages[..i], now)
      {
        var msg := messages[i];
        var speaker := if msg.roleType == "user" then UserMessage else AiResponse;
        var truncated := msg.metadata.Some? && "truncated" in msg.metadata.value &&
                         Truthy(msg.metadata.value["truncated"]);
        var timestamp := if msg.metadata.Some? && "timestamp" in msg.metadata.value
                         then msg.metadata.value["timestamp"] else Str(now(i));
        formatted := formatted + [HistoryEntry(speaker, msg.content, truncated, timestamp)];
        assert messages[..i + 1][..i] == messages[..i];
        i := i + 1;
      }
      assert messages[..|messages|] == messages;
    }
    return Success(formatted);
  }

  // ---------------------------------------------------------------------------
  // Rendering a result
  // ---------------------------------------------------------------------------

  /** The text for a missing result. */
  const Apology: string := "I couldn't generate a proper response. Please try again."

  const LinksHeading: string := "\nReference Links:\n"
  const NoLinks: string := "\nReference Links: None\n"
  const DocsHeading: string := "\nRelevant Documents:\n"
  const NoDocs: string := "\nRelevant Documents: None\n"

  /** The line for one link. */
  function LinkLine(l: ReferenceLink): string
  {
    "- " + l.title + ": " + l.url + "\n"
  }

  /** The lines for the links, in order. */
  function LinksText(links: seq<ReferenceLink>): string
  {
    if links == [] then "" else LinksText(links[..|links| - 1]) + LinkLine(links[|links| - 1])
  }

  /** The lines of consecutive runs of links are concatenated: one line per link, in link order. */
  lemma {:induction false} LinksTextAppend(a: seq<ReferenceLink>, b: seq<ReferenceLink>)
    ensures LinksText(a + b) == LinksText(a) + LinksText(b)
    ensures LinksText([]) == ""
    ensures |b| == 1 ==> LinksText(b) == LinkLine(b[0])
  {
    if b != [] {
      LinksTextAppend(a, b[..|b| - 1]);
      assert (a + b)[..|a + b| - 1] == a + b[..|b| - 1];
      if |b| == 1 {
        assert b[..0] == [];
      }
    } else {
      assert a + b == a;
    }
  }

  /** The block for the document numbered `n`. */
  function DocEntry(n: nat, d: RelevantDocument, formatScore: real -> string): string
  {
    "\n[" + NatToString(n) + "] Score: " + formatScore(d.score) + "\n" +
    "URL: " + d.url + "\n" +
    "Preview: " + d.contentPreview + "\n"
  }

  /** The blocks for the documents, numbered from 1 in list order. */
  function DocsText(docs: seq<RelevantDocument>, formatScore: real -> string): string
  {
    if docs == [] then ""
    else DocsText(docs[..|docs| - 1], formatScore) + DocEntry(|docs|, docs[|docs| - 1], formatScore)
  }

  /** The document at position `k` is listed as number `k + 1`, right after the ones before it. */
  lemma {:induction false} DocsTextInOrder(docs: seq<RelevantDocument>, formatScore: real -> string, k: nat)
    requires k < |docs|
    ensures DocsText(docs[..k], formatScore) + DocEntry(k + 1, docs[k], formatScore) <= DocsText(docs, formatScore)
  {
    var init := docs[..|docs| - 1];
    if k == |docs| - 1 {
      assert docs[..k] == init;
    } else {
      DocsTextInOrder(init, formatScore, k);
      assert init[..k] == docs[..k];
      assert DocsText(init, formatScore) <= DocsText(docs, formatScore);
    }
  }

  /** The documents in the order they are listed: by score, highest first, ties in their original order. */
  function ListedDocs(docs: seq<RelevantDocument>): (listed: seq<RelevantDocument>)
    ensures SortedDesc(listed, DocScore)
    ensures multiset(listed) == multiset(docs)
  {
    SortDesc(docs, DocScore)
  }

  /** The part of the text before the links. */
  function ResponseHead(r: QueryResult): string
  {
    "\n--- Final Output ---\n" + "\nResponse:\n" + r.finalResponse + "\n"
  }

  /** The links section: one line per link, or "None". */
  function LinksSection(links: seq<ReferenceLink>): string
  {
    if links != [] then LinksHeading + LinksText(links) else NoLinks
  }

  /** The documents section: the listed documents numbered from 1, or "None". */
  function DocsSection(docs: seq<RelevantDocument>, formatScore: real -> string): string
  {
    if docs != [] then DocsHeading + DocsText(ListedDocs(docs), formatScore) else NoDocs
  }

  /** The text `print_result` builds. */
  function Rendered(result: Option<QueryResult>, formatScore: real -> string): string
  {
    match result
    case None => Apology
    case Some(r) => ResponseHead(r) + LinksSection(r.referenceLinks) + DocsSection(r.relevantDocs, formatScore)
  }

  /** The links section says "None" exactly when the result has no links. */
  lemma NoLinksExactly(r: QueryResult, formatScore: real -> string)
    ensures ResponseHead(r) + NoLinks <= Rendered(Some(r), formatScore) <==> r.referenceLinks == []
  {
    var head := ResponseHead(r);
    var text := Rendered(Some(r), formatScore);
    if r.referenceLinks != [] {
      assert text == head + (LinksHeading + LinksText(r.referenceLinks)) + DocsSection(r.relevantDocs, formatScore);
      assert text[|head| + 17] == LinksHeading[17];
      assert (head + NoLinks)[|head| + 17] == NoLinks[17];
    }
  }

  /** Appending the next link's line to text ending in the earlier lines gives text ending in one more line. */
  lemma LinksTextStep(out: string, links: seq<ReferenceLink>, i: nat)
    requires i < |links|
    ensures out + LinksText(links[..i + 1]) == (out + LinksText(links[..i])) + LinkLine(links[i])
  {
    assert links[..i + 1][..i] == links[..i];
  }

  /** Appending the next document's block to text ending in the earlier blocks gives text ending in one more block. */
  lemma DocsTextStep(out: string, docs: seq<RelevantDocument>, formatScore: real -> string, i: nat)
    requires i < |docs|
    ensures out + DocsText(docs[..i + 1], formatScore) ==
            (out + DocsText(docs[..i], formatScore)) + DocEntry(i + 1, docs[i], formatScore)
  {
    assert docs[..i + 1][..i] == docs[..i];
  }

  /** The link loop of `print_result`: one line per link appended to `out`. */
  method AppendLinkLines(out: string, links: seq<ReferenceLink>) returns (out': string)
    ensures out' == out + LinksText(links)
  {
    out' := out;
    var i := 0;
    while i < |links|
      invariant 0 <= i <= |links|
      invariant out' == out + LinksText(links[..i])
    {
      out' := out' + LinkLine(links[i]);
      LinksTextStep(out, links, i);
      i := i + 1;
    }
    assert links[..|links|] == links;
  }

  /** The links section appended to `out`. */
  method AppendLinks(out: string, links: seq<ReferenceLink>) returns (out': string)
    ensures out' == out + LinksSection(links)
  {
    if links == [] {
      return out + NoLinks;
    }
    out' := AppendLinkLines(out + LinksHeading, links);
  }

  /** The document loop of `print_result`: the numbered blocks appended to `out`. */
  method AppendDocEntries(out: string, docs: seq<RelevantDocument>, formatScore: real -> string) returns (out': string)
    ensures out' == out + DocsText(docs, formatScore)
  {
    out' := out;
    var i := 0;
    while i < |docs|
      invariant 0 <= i <= |docs|
      invariant out' == out + DocsText(docs[..i], formatScore)
    {
      out' := out' + DocEntry(i + 1, docs[i], formatScore);
      DocsTextStep(out, docs, formatScore, i);
      i := i + 1;
    }
    assert docs[..|docs|] == docs;
  }

  /** The documents section appended to `out`. */
  method AppendDocs(out: string, relevantDocs: seq<RelevantDocument>, formatScore: real -> string) returns (out': string)
    ensures out' == out + DocsSection(relevantDocs, formatScore)
  {
    if relevantDocs == [] {
      return out + NoDocs;
    }
    out' := AppendDocEntries(out + DocsHeading, SortDesc(relevantDocs, DocScore), formatScore);
  }

  /**
   * `print_result`: the apology for a missing result; otherwise the response,
   * then one line per link (or "None"), then the documents by score, highest
   * first and numbered from 1 (or "None").
   */
  method PrintResult(result: Option<QueryResult>, formatScore: real -> string) returns (out: string)
    ensures out == Rendered(result, formatScore)
  {
    if result.None? {
      return Apology;
    }
    var r := result.value;
    out := "\n--- Final Output ---\n";
    out := out + "\nResponse:\n" + r.finalResponse + "\n";
    out := AppendLinks(out, r.referenceLinks);
    out := AppendDocs(out, r.relevantDocs, formatScore);
  }
}
