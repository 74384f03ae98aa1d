/**
 * The three calls into the language-model service (services/geminiService.ts).
 * The network call itself is not modelled: what it produced arrives as a
 * reply value, and each function turns that reply, or its failure, into
 * the plain value the caller sees. No function here can fail.
 */
module GeminiService {
  import opened Types

  /** One element of the parsed JSON array the quest request answers with. */
  datatype RawItem = RawItem(title: string, description: string)

  /**
   * The outcome of the quest request: the parsed array (an empty response
   * text parses as the empty array), or any failure of the request, of the
   * JSON parse or of mapping over a value that is not an array.
   */
  datatype QuestReply = Parsed(items: seq<RawItem>) | QuestFailure

  /** The outcome of a text request (encouragement or chat turn). */
  datatype TextReply = Text(text: string) | TextFailure

  const ChatApology: string := "죄송해요, 잠시 연결이 불안정하네요. 조금 뒤에 다시 이야기해 줄래요?"
  const CheerDefault: string := "정말 잘했어요! 한 걸음 더 나아갔군요."
  const CheerOnError: string := "수고했어요! 오늘도 멋진 하루네요."

  /** The reward a quest of each tier is worth. */
  function TierXp(d: Difficulty): (xp: nat)
    ensures xp == 10 || xp == 25 || xp == 50
  {
    match d
    case TINY => 10
    case EASY => 25
    case NORMAL => 50
  }

  /** The reward tells the tier apart: no two tiers share one. */
  lemma TierXpDistinguishesTiers(a: Difficulty, b: Difficulty)
    ensures TierXp(a) == TierXp(b) <==> a == b
  {
  }

  /** The topic the prompt names when the user gave no interest. */
  function DefaultTopic(d: Difficulty): string
  {
    match d
    case TINY => "General well-being"
    case EASY => "Self-improvement"
    case NORMAL => "Learning"
  }

  /**
   * The interest the quest prompt names: the user's text, or the tier's
   * default topic when that text is empty (JavaScript's `||` on strings).
   */
  function PromptTopic(d: Difficulty, interests: string): (topic: string)
    ensures topic != ""
    ensures interests != "" ==> topic == interests
    ensures interests == "" ==> topic == DefaultTopic(d)
  {
    if interests != "" then interests else DefaultTopic(d)
  }

  /** One quest draft per parsed item, in order, at the tier's reward. */
  function ShapeQuests(items: seq<RawItem>, d: Difficulty): (r: seq<QuestDraft>)
    ensures |r| == |items|
    ensures forall i :: 0 <= i < |r| ==>
              r[i].title == items[i].title && r[i].description == items[i].description
    ensures forall q :: q in r ==> q.difficulty == d && q.xp == TierXp(d)
  {
    seq(|items|, i requires 0 <= i < |items| =>
      QuestDraft(items[i].title, items[i].description, d, TierXp(d)))
  }

  /**
   * The batch handed out when the request fails: three fixed quests at the
   * requested tier, each worth 10 whatever that tier is.
   */
  function FallbackQuests(d: Difficulty): (r: seq<QuestDraft>)
    ensures |r| == 3
    ensures forall q :: q in r ==> q.difficulty == d && q.xp == 10 && q.title != ""
  {
    [ QuestDraft("심호흡 3번 하기", "눈을 감고 깊게 숨을 들이마시고 내쉬어보세요.", d, 10),
      QuestDraft("물 한 잔 마시기", "시원한 물 한 잔으로 몸을 깨워보세요.", d, 10),
      QuestDraft("창문 열기", "신선한 공기를 1분만 쐬어보세요.", d, 10) ]
  }

  /**
   * generateDailyQuests: the parsed items shaped into drafts, or the
   * fallback batch on failure. The number of quests is whatever the reply
   * holds; only the fallback has exactly three.
   */
  function GenerateDailyQuests(d: Difficulty, reply: QuestReply): (r: seq<QuestDraft>)
    ensures forall q :: q in r ==> q.difficulty == d
    ensures forall q :: q in r ==> q.xp == TierXp(d) || q.xp == 10
    ensures reply.Parsed? ==> |r| == |reply.items|
    ensures reply.Parsed? ==>
              forall i :: 0 <= i < |r| ==>
                r[i].title == reply.items[i].title &&
                r[i].description == reply.items[i].description &&
                r[i].xp == TierXp(d)
    ensures reply.QuestFailure? ==> |r| == 3 && forall q :: q in r ==> q.xp == 10
  {
    match reply
    case Parsed(items) => ShapeQuests(items, d)
    case QuestFailure => FallbackQuests(d)
  }

  /** Every quest of a TINY batch is worth 10, whether the request succeeded or not. */
  lemma TinyBatchIsWorthTenEach(reply: QuestReply)
    ensures forall q :: q in GenerateDailyQuests(TINY, reply) ==> q.xp == 10
  {
  }

  /**
   * Above TINY a failed request pays less than the tier promises: the
   * fallback's reward of 10 is below the tier's.
   */
  lemma FallbackUnderpaysAboveTiny(d: Difficulty)
    requires d != TINY
    ensures forall q :: q in GenerateDailyQuests(d, QuestFailure) ==> q.xp < TierXp(d)
  {
  }

  /**
   * generateEncouragement: the reply's text, the default sentence when
   * that text is empty, another fixed sentence when the request fails.
   */
  function GenerateEncouragement(reply: TextReply): (msg: string)
    ensures msg != ""
    ensures reply.Text? && reply.text != "" ==> msg == reply.text
    ensures reply.Text? && reply.text == "" ==> msg == CheerDefault
    ensures reply.TextFailure? ==> msg == CheerOnError
  {
    match reply
    case Text(t) => if t != "" then t else CheerDefault
    case TextFailure => CheerOnError
  }

  /** chatWithCoach: the reply's text, or the fixed apology on failure. */
  function ChatWithCoach(reply: TextReply): (answer: string)
    ensures reply.Text? ==> answer == reply.text
    ensures reply.TextFailure? ==> answer == ChatApology
  {
    match reply
    case Text(t) => t
    case TextFailure => ChatApology
  }
}
