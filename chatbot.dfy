/**
 * The public site's chat bot: a fixed list of keyword groups with their
 * answers, matched against the lower-cased question, and the send
 * handler that appends the question and the answer to the conversation.
 */
module ChatBot {
  import opened Common
  import opened KeywordMatch

  /** What an answer is about; the texts are in `Answer`. */
  datatype Topic = Leasing | SaleLeaseback | Price | Application | Equipment | Company | Term
                 | ResidualValue | DownPayment | Login | Contact | Security | Hello | Thanks

  /** One knowledge-base item: its keywords and the topic of its answer. */
  datatype Entry = Entry(keywords: seq<string>, topic: Topic)

  function EntryKeywords(e: Entry): seq<string> { e.keywords }

  /** `knowledgeBase`, in its order. */
  const KnowledgeBase: seq<Entry> := [
    Entry(["leasing", "lea", "vuokraus", "mitä", "mikä"], Leasing),
    Entry(["takaisinvuokraus", "slb", "sale-leaseback", "sale"], SaleLeaseback),
    Entry(["hinta", "maksu", "kuukausi", "kk", "hinnasto", "paljonko"], Price),
    Entry(["hakemu", "hake", "miten", "kuinka", "aloita", "tee"], Application),
    Entry(["kone", "laite", "kohde", "rahoite", "rahoitettav"], Equipment),
    Entry(["yritys", "yrittäjä", "toiminimi", "oy", "yhtiö"], Company),
    Entry(["aika", "kesto", "kausi", "pituus", "kuinka kauan"], Term),
    Entry(["jäännösarvo", "lunastus", "osta", "omaksi"], ResidualValue),
    Entry(["käsiraha", "ensimmäinen", "alkumaksu", "omarahoitus"], DownPayment),
    Entry(["kirjaudu", "login", "sisään", "salasana", "tunnus"], Login),
    Entry(["yhteystied", "puhelin", "soita", "sähköposti", "email"], Contact),
    Entry(["turvalli", "luotettav", "tietoturv"], Security),
    Entry(["terve", "moi", "hei", "heippa", "hello"], Hello),
    Entry(["kiitos", "thanks", "ok", "selvä"], Thanks)
  ]

  /** The answer text of each knowledge-base item. */
  function Answer(t: Topic): string
  {
    match t
    case Leasing => "Leasing on rahoitusmuoto, jossa vuokraat laitteen tai koneen sovituksi ajaksi kiinteällä kuukausierällä. Sopimuskauden päätyttyä voit lunastaa kohteen, palauttaa sen tai jatkaa sopimusta. Leasing sopii erityisesti yrityksille, jotka haluavat pitää käyttöpääoman vapaana."
    case SaleLeaseback => "Takaisinvuokraus (Sale-Leaseback) tarkoittaa, että myyt omistamasi koneen tai laitteen rahoitusyhtiölle ja vuokraat sen takaisin. Näin vapautat pääomaa kassaan ja jatkat kohteen käyttöä normaalisti. Sopii erinomaisesti käyttöpääoman vahvistamiseen."
    case Price => "Kuukausierä määräytyy kohteen arvon, sopimuskauden ja jäännösarvon mukaan. Tyypillisesti sopimuskausi on 24-72 kuukautta. Tee hakemus sivustollamme ja saat räätälöidyn tarjouksen nopeasti!"
    case Application => "Hakemuksen tekeminen on helppoa! 1) Täytä lomake etusivulla 2) Saat vahvistuslinkin sähköpostiin 3) Kirjaudu sisään ja seuraa hakemuksen etenemistä. Käsittelemme hakemukset nopeasti, usein jo saman päivän aikana."
    case Equipment => "Rahoitamme laajasti erilaisia koneita ja laitteita: maatalouskoneet, metsäkoneet, rakennuskoneet, kuorma-autot, työkoneet, tuotantolaitteet ja paljon muuta. Jos et ole varma, lähetä hakemus niin arvioimme tilanteen!"
    case Company => "Palvelemme kaikkia yritysmuotoja: osakeyhtiöt, toiminimet, kommandiittiyhtiöt ja osuuskunnat. Yrityksen tulee olla rekisteröity Suomeen ja sillä tulee olla Y-tunnus."
    case Term => "Sopimuskausi vaihtelee yleensä 24-72 kuukauden välillä. Lyhyempi kausi tarkoittaa suurempaa kuukausierää mutta nopeampaa lunastusta. Pidempi kausi pienentää kuukausierää. Voit valita yrityksellesi sopivimman vaihtoehdon."
    case ResidualValue => "Jäännösarvo on summa, jolla voit lunastaa kohteen itsellesi sopimuskauden päätyttyä. Jäännösarvo sovitaan etukäteen ja se pienentää kuukausierää. Tyypillisesti jäännösarvo on 0-20% kohteen arvosta."
    case DownPayment => "Käsiraha on vapaaehtoinen alkumaksu, joka pienentää rahoitettavaa summaa ja siten myös kuukausierää. Käsiraha ei ole pakollinen, mutta se voi parantaa rahoituksen ehtoja."
    case Login => "Kirjautuminen tapahtuu \"Kirjaudu\"-painikkeesta sivun yläkulmassa. Jos olet uusi asiakas, saat vahvistuslinkin sähköpostiisi hakemuksen lähettämisen jälkeen. Linkistä pääset asettamaan salasanan ja kirjautumaan."
    case Contact => "Palvelemme ensisijaisesti verkkopalvelumme kautta! Kirjaudu sisään ja lähetä viesti suoraan hakemuksesi kautta. Näin saat nopeimman vastauksen ja kaikki viestit tallentuvat hakemukseesi."
    case Security => "Juuri Rahoitus on luotettava suomalainen rahoituskumppani. Käytämme turvallista salattua yhteyttä (HTTPS) ja noudatamme EU:n tietosuoja-asetusta (GDPR). Tietosi ovat turvassa."
    case Hello => "Hei! 👋 Olen Juuri Rahoituksen virtuaaliassistentti. Voin auttaa sinua leasingiin ja takaisinvuokraukseen liittyvissä kysymyksissä. Kysy rohkeasti!"
    case Thanks => "Ole hyvä! 😊 Jos sinulla tulee lisäkysymyksiä, autan mielelläni. Onnea rahoitushakemukseen!"
  }

  /** The answer when no keyword matches. */
  const Fallback: string := "En täysin ymmärtänyt kysymystäsi. Voit kysyä minulta esimerkiksi:\n• Mitä on leasing?\n• Miten teen hakemuksen?\n• Mikä on takaisinvuokraus?\n• Miten kirjaudun sisään?\n\nTai lähetä hakemus, niin asiantuntijamme ovat yhteydessä!"

  /**
   * The matching half of `findAnswer`: the topic of the first entry, in
   * list order, with a keyword occurring in the lower-cased question; none
   * when no entry matches.
   */
  function FindTopic(question: string): (t: Option<Topic>)
    ensures forall i :: IsFirstMatch(KnowledgeBase, EntryKeywords, ToLower(question), i) ==> t == Some(KnowledgeBase[i].topic)
    ensures t.None? <==> forall i :: 0 <= i < |KnowledgeBase| ==> !MatchesSome(ToLower(question), EntryKeywords(KnowledgeBase[i]))
  {
    FirstMatchSelects(KnowledgeBase, EntryKeywords, ToLower(question));
    match FirstMatch(KnowledgeBase, EntryKeywords, ToLower(question))
    case Some(i) => Some(KnowledgeBase[i].topic)
    case None => None
  }

  /** `findAnswer`: the matched topic's answer, or the fallback text. */
  function FindAnswer(question: string): (a: string)
    ensures forall i :: IsFirstMatch(KnowledgeBase, EntryKeywords, ToLower(question), i) ==> a == Answer(KnowledgeBase[i].topic)
    ensures (forall i :: 0 <= i < |KnowledgeBase| ==> !MatchesSome(ToLower(question), EntryKeywords(KnowledgeBase[i]))) ==> a == Fallback
  {
    match FindTopic(question)
    case Some(t) => Answer(t)
    case None => Fallback
  }

  /** Matching ignores case: lower-casing the question first changes nothing. */
  lemma CaseInsensitive(question: string)
    ensures FindTopic(ToLower(question)) == FindTopic(question)
    ensures FindAnswer(ToLower(question)) == FindAnswer(question)
  {
    ToLowerIdempotent(question);
  }

  /** The first entry shadows the rest: every question mentioning leasing gets its answer. */
  lemma LeasingWins(question: string)
    requires Contains(ToLower(question), "leasing")
    ensures FindTopic(question) == Some(Leasing)
  {
    assert KnowledgeBase[0].keywords[0] == "leasing";
    assert IsFirstMatch(KnowledgeBase, EntryKeywords, ToLower(question), 0);
  }

  /** "vuokraus", a keyword of the first entry, occurs in "takaisinvuokraus". */
  lemma VuokrausInTakaisinvuokraus()
    ensures Contains("takaisinvuokraus", "vuokraus")
  {
    assert OccursAt("takaisinvuokraus", "vuokraus", 8);
    ContainsIff("takaisinvuokraus", "vuokraus");
  }

  /**
   * As written, a question naming sale-leaseback ("takaisinvuokraus") gets
   * the leasing answer, not the sale-leaseback one: the first entry's
   * keyword "vuokraus" occurs inside it.
   */
  lemma SaleLeasebackAnsweredAsLeasing(question: string)
    requires Contains(ToLower(question), "takaisinvuokraus")
    ensures FindTopic(question) == Some(Leasing)
  {
    VuokrausInTakaisinvuokraus();
    assert KnowledgeBase[0].keywords[2] == "vuokraus";
    Shadowed(KnowledgeBase, EntryKeywords, ToLower(question), "takaisinvuokraus", 0, 2);
    assert IsFirstMatch(KnowledgeBase, EntryKeywords, ToLower(question), 0);
  }

  /**
   * The fallback text itself suggests asking this question; as written it
   * gets the leasing answer, with the corrected matcher the sale-leaseback
   * one.
   */
  lemma SuggestedQuestionMisanswered()
    ensures FindTopic("Mikä on takaisinvuokraus?") == Some(Leasing)
    ensures BestTopic("Mikä on takaisinvuokraus?") == Some(SaleLeaseback)
  {
    var q := "Mikä on takaisinvuokraus?";
    assert ToLower(q)[8..24] == "takaisinvuokraus";
    assert OccursAt(ToLower(q), "takaisinvuokraus", 8);
    ContainsIff(ToLower(q), "takaisinvuokraus");
    SaleLeasebackAnsweredAsLeasing(q);
    SaleLeasebackAnsweredCorrectly(q);
  }

  /**
   * The corrected matcher: the topic of the entry with the longest keyword
   * occurring in the lower-cased question, the earliest on ties; none when
   * no entry matches, as before.
   */
  function BestTopic(question: string): (t: Option<Topic>)
    ensures t.None? <==> forall i :: 0 <= i < |KnowledgeBase| ==> !MatchesSome(ToLower(question), EntryKeywords(KnowledgeBase[i]))
    ensures t.Some? ==> exists i :: IsBestMatch(KnowledgeBase, EntryKeywords, ToLower(question), i) && t == Some(KnowledgeBase[i].topic)
  {
    match BestMatch(KnowledgeBase, EntryKeywords, ToLower(question))
    case Some(i) => Some(KnowledgeBase[i].topic)
    case None => None
  }

  /** The corrected `findAnswer`. */
  function BestAnswer(question: string): (a: string)
    ensures (forall i :: 0 <= i < |KnowledgeBase| ==> !MatchesSome(ToLower(question), EntryKeywords(KnowledgeBase[i]))) ==> a == Fallback
    ensures BestTopic(question).Some? ==> a == Answer(BestTopic(question).value)
  {
    match BestTopic(question)
    case Some(t) => Answer(t)
    case None => Fallback
  }

  /** No keyword is longer than "takaisinvuokraus". */
  lemma KeywordsAtMost16()
    ensures forall j, k :: 0 <= j < |KnowledgeBase| && 0 <= k < |EntryKeywords(KnowledgeBase[j])| ==>
              |EntryKeywords(KnowledgeBase[j])[k]| <= 16
  {
  }

  /** With the corrected matcher, a question naming sale-leaseback gets the sale-leaseback answer. */
  lemma SaleLeasebackAnsweredCorrectly(question: string)
    requires Contains(ToLower(question), "takaisinvuokraus")
    ensures BestTopic(question) == Some(SaleLeaseback)
  {
    SaleLeasebackEntry();
    SaleLeasebackEntrySelected(ToLower(question));
    BestTopicOfMatch(question, 1);
  }

  /** The second entry is the sale-leaseback one. */
  lemma SaleLeasebackEntry()
    ensures 1 < |KnowledgeBase| && KnowledgeBase[1].topic == SaleLeaseback
  {
  }

  /** "takaisinvuokraus" is the longest keyword, and only the second entry lists it. */
  lemma SaleLeasebackEntrySelected(q: string)
    requires Contains(q, "takaisinvuokraus")
    ensures BestMatch(KnowledgeBase, EntryKeywords, q) == Some(1)
  {
    SaleLeasebackKeyword();
    ScoreAtMost(q, EntryKeywords(KnowledgeBase[0]), 8);
    KeywordsAtMost16();
    ScoresAtMost(KnowledgeBase, EntryKeywords, q, 16);
    LongestKeywordWins(KnowledgeBase, EntryKeywords, q, 1, 0, 16);
  }

  /** The second entry's first keyword is "takaisinvuokraus"; the first entry's keywords are shorter. */
  lemma SaleLeasebackKeyword()
    ensures 1 < |KnowledgeBase| && 0 < |EntryKeywords(KnowledgeBase[1])|
    ensures EntryKeywords(KnowledgeBase[1])[0] == "takaisinvuokraus" && |"takaisinvuokraus"| == 16
    ensures forall k :: 0 <= k < |EntryKeywords(KnowledgeBase[0])| ==> |EntryKeywords(KnowledgeBase[0])[k]| <= 8
  {
  }

  /** The corrected topic is that of the entry the longest-keyword rule selects. */
  lemma BestTopicOfMatch(question: string, i: nat)
    requires i < |KnowledgeBase| && BestMatch(KnowledgeBase, EntryKeywords, ToLower(question)) == Some(i)
    ensures BestTopic(question) == Some(KnowledgeBase[i].topic)
  {
  }

  // ---------------------------------------------------------------------
  // The conversation
  // ---------------------------------------------------------------------

  datatype Role = User | Bot

  /** A chat message; its id is the clock reading when it was sent. */
  datatype Message = Message(id: int, role: Role, content: string)

  const OpeningGreeting: string := "Hei! 👋 Olen Juuri Rahoituksen virtuaaliassistentti. Miten voin auttaa sinua tänään?"

  /** The conversation starts with the bot's greeting. */
  const InitialMessages: seq<Message> := [Message(0, Bot, OpeningGreeting)]

  /**
   * The messages shown, the text in the input field, the typing indicator,
   * and the questions whose delayed answers are still on their timers, in
   * the order they were asked. The input stays enabled while an answer is
   * pending, so several questions can be waiting at once.
   */
  datatype Chat = Chat(messages: seq<Message>, input: string, isTyping: bool, queued: seq<string>)

  const InitialChat: Chat := Chat(InitialMessages, "", false, [])

  /**
   * `handleSend`: a blank input does nothing; otherwise the typed text is
   * appended as the user's message (its id the clock reading `now`), the
   * field is cleared, the typing indicator is switched on and the answer
   * to that text is put on a timer.
   */
  function Send(c: Chat, now: int): (r: Chat)
    ensures IsBlank(c.input) ==> r == c
    ensures !IsBlank(c.input) ==> r.input == "" && r.isTyping
    ensures !IsBlank(c.input) ==> r.messages == c.messages + [Message(now, User, c.input)]
    ensures !IsBlank(c.input) ==> r.queued == c.queued + [c.input]
  {
    if IsBlank(c.input) then c
    else Chat(c.messages + [Message(now, User, c.input)], "", true, c.queued + [c.input])
  }

  /**
   * The timer of the `i`-th waiting question fires. Each timer has its own
   * random delay, so any waiting question may be answered next. Its answer
   * is appended, its id one more than the clock reading `later`, and the
   * typing indicator goes off, even when other answers are still waiting.
   * `answer` is the bot's answering rule: `FindAnswer` as written.
   */
  function Deliver(c: Chat, i: nat, later: int, answer: string -> string): (r: Chat)
    requires i < |c.queued|
    ensures r.messages == c.messages + [Message(later + 1, Bot, answer(c.queued[i]))]
    ensures r.queued == c.queued[..i] + c.queued[i + 1..] && |r.queued| == |c.queued| - 1
    ensures multiset(r.queued) + multiset{c.queued[i]} == multiset(c.queued)
    ensures r.input == c.input && !r.isTyping
  {
    assert c.queued == c.queued[..i] + [c.queued[i]] + c.queued[i + 1..];
    Chat(c.messages + [Message(later + 1, Bot, answer(c.queued[i]))], c.input, false,
         c.queued[..i] + c.queued[i + 1..])
  }

  /** Sending again right after a send does nothing: the field is empty. */
  lemma SendClearsInput(c: Chat, now: int, now2: int)
    ensures Send(Send(c, now), now2) == Send(c, now)
  {
    if !IsBlank(c.input) {
      assert IsBlank("");
    }
  }

  /** A question answered before the next is asked: the question, then its answer. */
  lemma SendThenDeliver(c: Chat, now: int, later: int, answer: string -> string)
    requires !IsBlank(c.input)
    ensures var r := Deliver(Send(c, now), |c.queued|, later, answer);
            r.messages == c.messages + [Message(now, User, c.input), Message(later + 1, Bot, answer(c.input))]
            && r.queued == c.queued && r.input == "" && !r.isTyping
  {
  }

  /** Typing `q` into the field and pressing send. */
  function Ask(c: Chat, q: string, now: int): (r: Chat)
    ensures IsBlank(q) ==> r == c.(input := q)
    ensures !IsBlank(q) ==> r.messages == c.messages + [Message(now, User, q)] && r.input == ""
    ensures !IsBlank(q) ==> r.queued == c.queued + [q] && |r.queued| == |c.queued| + 1
  {
    Send(c.(input := q), now)
  }

  /**
   * Two questions asked before either answer arrives: the second answer
   * may come first, so the conversation reads Q1, Q2, A2, A1.
   */
  lemma AnswersOutOfOrder(c: Chat, q1: string, q2: string, t1: int, t2: int, l1: int, l2: int, answer: string -> string)
    requires !IsBlank(q1) && !IsBlank(q2)
    ensures var asked := Ask(Ask(c, q1, t1), q2, t2);
            var r := Deliver(Deliver(asked, |c.queued| + 1, l2, answer), |c.queued|, l1, answer);
            r.messages == c.messages + [Message(t1, User, q1), Message(t2, User, q2),
                                        Message(l2 + 1, Bot, answer(q2)), Message(l1 + 1, Bot, answer(q1))]
            && r.queued == c.queued
  {
  }

  /** The number of messages from one side. */
  function CountRole(s: seq<Message>, role: Role): (n: nat)
    ensures n <= |s|
    ensures |s| == 1 ==> n == if s[0].role == role then 1 else 0
  {
    if s == [] then 0 else CountRole(s[..|s| - 1], role) + if s[|s| - 1].role == role then 1 else 0
  }

  /**
   * Every question is answered once: after the greeting, the user's
   * messages equal the bot's answers plus the answers still waiting.
   */
  predicate Balanced(c: Chat)
  {
    CountRole(c.messages, User) + 1 == CountRole(c.messages, Bot) + |c.queued|
  }

  /** The opening state is balanced, and sending and delivering keep it so. */
  lemma BalancedKept(c: Chat, now: int, i: nat, later: int, answer: string -> string)
    ensures Balanced(InitialChat)
    ensures Balanced(c) ==> Balanced(Send(c, now))
    ensures Balanced(c) && i < |c.queued| ==> Balanced(Deliver(c, i, later, answer))
  {
  }
}
