/** The stored records of the backend and the pure part of a conversational turn:
    picking the short-term history of a chat, framing the long-term memory matches,
    and assembling the prompt handed to the generation service. */
module ChatMemory {
  import opened Common
  import Text

  type UserId = string

  /** An embedding. Its numbers are produced and compared only by external services. */
  type Vector = seq<real>

  /** One stored message. `id` is issued by the store in creation order,
      `createdAt` is the store's timestamp. */
  datatype Message = Message(
    id: nat, userID: UserId, chatID: string, role: Role,
    content: Content, file: bool, createdAt: nat)

  /** The metadata bag of a memory entry: `{chatID, userID, text}`. */
  datatype Metadata = Metadata(chatID: string, userID: UserId, text: string)

  /** One row of the vector memory index. */
  datatype MemoryEntry = MemoryEntry(messageID: nat, vector: Vector, metadata: Metadata)

  /** One match returned by a memory query, best first. */
  datatype Match = Match(metadata: Metadata, score: real)

  /** `{text}` inside a prompt turn's `parts`. */
  datatype Part = Part(text: Content)

  /** `{role, parts}`: one turn of the prompt handed to the generation service. */
  datatype PromptTurn = PromptTurn(role: Role, parts: seq<Part>)

  /** `.limit(20)` on the history query. */
  const HistoryLimit: nat := 20
  /** `limit: 5` on the memory query. */
  const MemoryLimit: nat := 5

  /** The template literal around the joined memory texts: a line break and ten spaces,
      the instruction sentence (ending in a space), a line break and ten spaces ... */
  const MemoryPreamble: string :=
    "\n          These are some previous messages from the chat, use them to generate a response: \n          "
  /** ... and, after the joined texts, a line break and ten spaces. */
  const MemoryClosing: string := "\n          "

  /** The store keeps messages in creation order with strictly increasing timestamps. */
  ghost predicate Chronological(store: seq<Message>) {
    forall i, j | 0 <= i < j < |store| :: store[i].createdAt < store[j].createdAt
  }

  /** `messageModel.find({chatID})`: the chat's messages, in store order. */
  function ChatHistory(store: seq<Message>, chatID: string): (h: seq<Message>)
    ensures |h| <= |store|
    ensures forall m :: m in h <==> m in store && m.chatID == chatID
  {
    if store == [] then []
    else
      var last := store[|store| - 1];
      ChatHistory(store[..|store| - 1], chatID) + (if last.chatID == chatID then [last] else [])
  }

  /** `.reverse()`. */
  function Reverse<T>(s: seq<T>): seq<T> {
    seq(|s|, i requires 0 <= i < |s| => s[|s| - 1 - i])
  }

  /** `.limit(n)`: at most the first n elements. */
  function Take<T>(s: seq<T>, n: nat): (r: seq<T>)
  {
    if |s| <= n then s else s[..n]
  }

  /** Lines 77-85 as written: the chat's messages sorted newest first (the store's order
      reversed, see NewestFirstIsSorted), the first twenty kept, and the list reversed. */
  function RecentHistory(store: seq<Message>, chatID: string): seq<Message>
  {
    Reverse(Take(Reverse(ChatHistory(store, chatID)), HistoryLimit))
  }

  /** One `{role, parts: [{text: content}]}` turn per message. */
  function ToTurn(m: Message): PromptTurn {
    PromptTurn(m.role, [Part(m.content)])
  }

  /** `chatHistory.map(...)`: the short-term memory. */
  function ShortTermMemory(history: seq<Message>): seq<PromptTurn> {
    seq(|history|, i requires 0 <= i < |history| => ToTurn(history[i]))
  }

  /** `memory.map((item) => item.metadata.text)`. */
  function MatchTexts(matches: seq<Match>): seq<string> {
    seq(|matches|, i requires 0 <= i < |matches| => matches[i].metadata.text)
  }

  /** The text of the synthetic long-term turn: the match texts joined with "\n",
      inside the template literal. */
  function LongTermText(matches: seq<Match>): string {
    MemoryPreamble + Text.Join(MatchTexts(matches), "\n") + MemoryClosing
  }

  /** The one synthetic turn carrying the long-term memory. */
  function LongTermTurn(matches: seq<Match>): PromptTurn {
    PromptTurn(UserRole, [Part(Text(LongTermText(matches)))])
  }

  /** `[...longTermMemory, ...shortTermMemory]`. */
  function Prompt(matches: seq<Match>, history: seq<Message>): seq<PromptTurn> {
    [LongTermTurn(matches)] + ShortTermMemory(history)
  }

  /** Reversing a chronological list lists it newest first, so it is what
      `.sort({createdAt: -1})` returns. */
  lemma NewestFirstIsSorted(h: seq<Message>)
    requires Chronological(h)
    ensures forall i, j | 0 <= i < j < |h| :: Reverse(h)[i].createdAt > Reverse(h)[j].createdAt
  {
  }

  /** A sub-list of the store keeps its chronological order. */
  lemma {:induction false} ChatHistoryChronological(store: seq<Message>, chatID: string)
    requires Chronological(store)
    ensures Chronological(ChatHistory(store, chatID))
  {
    if store != [] {
      var prefix := store[..|store| - 1];
      var last := store[|store| - 1];
      assert Chronological(prefix);
      ChatHistoryChronological(prefix, chatID);
      var h := ChatHistory(prefix, chatID);
      forall m | m in h ensures m.createdAt < last.createdAt {
        var k :| 0 <= k < |prefix| && prefix[k] == m;
        assert store[k] == m;
      }
    }
  }

  lemma ReverseReverse<T>(s: seq<T>)
    ensures Reverse(Reverse(s)) == s
  {
    var r := Reverse(Reverse(s));
    forall i | 0 <= i < |s| ensures r[i] == s[i] {
      assert r[i] == Reverse(s)[|s| - 1 - i];
    }
  }

  /** The reverse of a prefix is the matching suffix of the reverse. */
  lemma ReversePrefix<T>(s: seq<T>, k: nat)
    requires k <= |s|
    ensures Reverse(s[..k]) == Reverse(s)[|s| - k..]
  {
    var a := Reverse(s[..k]);
    var b := Reverse(s)[|s| - k..];
    forall i | 0 <= i < k ensures a[i] == b[i] {
      assert a[i] == s[..k][k - 1 - i] == s[k - 1 - i];
      assert b[i] == Reverse(s)[|s| - k + i];
    }
    assert |a| == |b|;
  }

  /** Reversing, keeping the first n and reversing back keeps the last n, in order. */
  lemma ReverseTakeReverse<T>(h: seq<T>, n: nat)
    ensures var k := if |h| <= n then |h| else n;
            Reverse(Take(Reverse(h), n)) == h[|h| - k..]
  {
    ReverseReverse(h);
    if n < |h| {
      ReversePrefix(Reverse(h), n);
    }
  }

  /** The short-term history is the last min(20, n) messages of the chat, in store order. */
  lemma RecentHistoryIsLatest(store: seq<Message>, chatID: string)
    ensures var h := ChatHistory(store, chatID);
            var k := if |h| <= HistoryLimit then |h| else HistoryLimit;
            RecentHistory(store, chatID) == h[|h| - k..]
  {
    ReverseTakeReverse(ChatHistory(store, chatID), HistoryLimit);
  }

  /** The short-term history holds at most twenty messages, all of the chat and all stored. */
  lemma RecentHistoryBounded(store: seq<Message>, chatID: string)
    ensures var r := RecentHistory(store, chatID);
            && |r| <= HistoryLimit
            && forall m | m in r :: m in store && m.chatID == chatID
  {
    RecentHistoryIsLatest(store, chatID);
    var h := ChatHistory(store, chatID);
    var r := RecentHistory(store, chatID);
    forall m | m in r ensures m in h {
      var b :| 0 <= b < |r| && r[b] == m;
    }
  }

  /** The short-term history is oldest first, and every message of the chat it leaves out
      is older than every message it keeps: it is the newest twenty by `createdAt`. */
  lemma RecentHistoryNewestOldestFirst(store: seq<Message>, chatID: string)
    requires Chronological(store)
    ensures var h := ChatHistory(store, chatID);
            var r := RecentHistory(store, chatID);
            && r == h[|h| - |r|..]
            && (forall i, j | 0 <= i < j < |r| :: r[i].createdAt < r[j].createdAt)
            && (forall i, j | 0 <= i < |h| - |r| <= j < |h| :: h[i].createdAt < h[j].createdAt)
  {
    RecentHistoryIsLatest(store, chatID);
    ChatHistoryChronological(store, chatID);
  }

  /** A message just stored in the chat (the user message of lines 43-52, created before
      the history is read) is the last turn of the short-term history. */
  lemma RecentHistoryEndsWithNewest(store: seq<Message>, m: Message)
    ensures var r := RecentHistory(store + [m], m.chatID);
            r != [] && r[|r| - 1] == m
  {
    var s := store + [m];
    assert s[..|s| - 1] == store;
    var h := ChatHistory(s, m.chatID);
    assert h[|h| - 1] == m;
    RecentHistoryIsLatest(s, m.chatID);
  }

  /** Lines 95-112: the prompt is one role-"user" turn carrying the framed, newline-joined
      match texts, followed by one turn per history message in the same order. */
  lemma PromptLayout(matches: seq<Match>, history: seq<Message>)
    ensures var p := Prompt(matches, history);
            && |p| == |history| + 1
            && p[0].role == UserRole
            && p[0].parts == [Part(Text(MemoryPreamble + Text.Join(MatchTexts(matches), "\n") + MemoryClosing))]
            && forall i | 0 <= i < |history| ::
                 p[i + 1].role == history[i].role && p[i + 1].parts == [Part(history[i].content)]
  {
  }

  /** The framing loses nothing: when no match text contains a line break, cutting the
      frame off the long-term text and splitting it at line breaks gives back the match
      texts in match order. */
  lemma LongTermTextRecoversMatches(matches: seq<Match>)
    requires |matches| >= 1
    requires forall i | 0 <= i < |matches| :: '\n' !in matches[i].metadata.text
    ensures var t := LongTermText(matches);
            && |MemoryPreamble| + |MemoryClosing| <= |t|
            && Text.Split(t[|MemoryPreamble|..|t| - |MemoryClosing|], '\n') == MatchTexts(matches)
  {
    var texts := MatchTexts(matches);
    var joined := Text.Join(texts, "\n");
    var t := LongTermText(matches);
    assert t[|MemoryPreamble|..|t| - |MemoryClosing|] == joined;
    Text.SplitJoin(texts, '\n');
  }
}
