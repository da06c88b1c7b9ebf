/**
 * The logged-in customer's assistant: a larger keyword knowledge base whose
 * answers and quick actions depend on the customer's applications, the
 * fallback with suggestions drawn from the applications' states, the
 * smart suggestions shown with the greeting, the send and quick-action
 * handlers, and the pages on which the assistant is hidden.
 */
module PortalAssistant {
  import opened Common
  import opened KeywordMatch
  import Labels

  /** The fields of an application the assistant reads. */
  datatype PortalApp = PortalApp(id: string, companyName: string, status: string)

  /** The company details from the first application; a missing field is `None`. */
  datatype YtjDetails = YtjDetails(name: Option<string>, address: Option<string>, industry: Option<string>,
                                   registrationDate: Option<string>)

  /** `UserContext`, as loaded for the signed-in customer. */
  datatype UserContext = UserContext(userName: string, companyName: string, applications: seq<PortalApp>,
                                     ytjData: Option<YtjDetails>)

  datatype Variant = Primary | Secondary

  /** A quick-action button; `target` is the page it opens, none for the buttons that do nothing. */
  datatype QuickAction = QuickAction(title: string, target: Option<string>, variant: Variant)

  const ApplicationPath: string := "/dashboard/applications/"

  function ApplicationPage(app: PortalApp): string { ApplicationPath + app.id }

  // ---------------------------------------------------------------------
  // Looking through the applications
  // ---------------------------------------------------------------------

  /** `applications.find(a => statuses includes a.status)`. */
  function FindWithStatus(apps: seq<PortalApp>, statuses: set<string>): (r: Option<PortalApp>)
    ensures r.Some? <==> exists i :: 0 <= i < |apps| && apps[i].status in statuses
    ensures r.Some? ==> exists i :: 0 <= i < |apps| && apps[i] == r.value && apps[i].status in statuses
                                   && forall j :: 0 <= j < i ==> apps[j].status !in statuses
  {
    if |apps| == 0 then None
    else if apps[0].status in statuses then Some(apps[0])
    else
      var r := FindWithStatus(apps[1..], statuses);
      assert forall i :: 1 <= i < |apps| ==> apps[i] == apps[1..][i - 1];
      if r.Some? then
        assert exists i :: 0 <= i < |apps| - 1 && apps[1..][i] == r.value && apps[1..][i].status in statuses
                          && forall j :: 0 <= j < i ==> apps[1..][j].status !in statuses;
        var i :| 0 <= i < |apps| - 1 && apps[1..][i] == r.value && apps[1..][i].status in statuses
                 && forall j :: 0 <= j < i ==> apps[1..][j].status !in statuses;
        assert apps[i + 1] == r.value && forall j :: 0 <= j < i + 1 ==> apps[j].status !in statuses;
        r
      else r
  }

  /** `applications.filter(a => statuses includes a.status).length`. */
  function CountWithStatus(apps: seq<PortalApp>, statuses: set<string>): (n: nat)
    ensures n <= |apps|
    ensures n > 0 <==> FindWithStatus(apps, statuses).Some?
    ensures |apps| == 1 ==> n == if apps[0].status in statuses then 1 else 0
  {
    if |apps| == 0 then 0
    else (if apps[0].status in statuses then 1 else 0) + CountWithStatus(apps[1..], statuses)
  }
  /** The count over a concatenation is the sum of the counts over its parts. */
  lemma {:induction false} CountWithStatusAppend(a: seq<PortalApp>, b: seq<PortalApp>, statuses: set<string>)
    ensures CountWithStatus(a + b, statuses) == CountWithStatus(a, statuses) + CountWithStatus(b, statuses)
  {
    if |a| == 0 {
      assert a + b == b;
    } else {
      assert (a + b)[0] == a[0];
      assert (a + b)[1..] == a[1..] + b;
      CountWithStatusAppend(a[1..], b, statuses);
    }
  }


  /** `applications.some(a => a.status === status)`. */
  predicate HasStatus(apps: seq<PortalApp>, status: string)
  {
    exists i :: 0 <= i < |apps| && apps[i].status == status
  }

  const OfferStatuses: set<string> := {"OFFER_SENT", "OFFER_RECEIVED"}

  // ---------------------------------------------------------------------
  // The knowledge base
  // ---------------------------------------------------------------------

  /** What an answer is about; a topic's text and actions may depend on the context. */
  datatype Topic = Offers | OfferValidity | Negotiation | Contracts | ContractChange | Termination
                | ApplicationStatus | ProcessingTime | ApplicationEdit | Documents | DocumentUpload
                | CreditDecision | CreditRejected | LeasingBasics | LeasingVsLoan | LeasingTypes
                | SaleLeaseback | Valuation | MonthlyPayment | PaymentMethods | LatePayment
                | PaymentDifficulties | DownPayment | ResidualValue | ContractTerm | Taxation
                | Dividends | BusinessSale | Bankruptcy | Collateral | UsedMachines | Software
                | Process | Speeding | CustomerService | Callback | WhyUs | CompanyInfo | Financed
                | NextStep | Greeting | Thanks | Problems | Security

  /** One knowledge-base item: its keywords and its topic. */
  datatype Entry = Entry(keywords: seq<string>, topic: Topic)

  function EntryKeywords(e: Entry): seq<string> { e.keywords }

  /** `portalKnowledge`, in its order. */
  const PortalKnowledge: seq<Entry> := [
    Entry(["tarjous", "tarjoukset", "offer", "tarjouksen", "näytä tarjous"], Offers),
    Entry(["voimassa", "kuinka kauan tarjous", "tarjouksen voimassaolo", "umpeutuu"], OfferValidity),
    Entry(["neuvottelu", "neuvotella", "tingitä", "parempi", "ehdot", "muuttaa tarjous"], Negotiation),
    Entry(["sopimus", "allekirjoitus", "allekirjoita", "contract", "sopimuksen"], Contracts),
    Entry(["muuttaa sopimus", "sopimuksen muutos", "muokata sopimus", "kesken sopimus"], ContractChange),
    Entry(["irtisano", "lopettaa", "peruuttaa", "keskeyttää", "purkaa sopimus"], Termination),
    Entry(["hakemus", "hakemukset", "tila", "status", "missä", "vaihe", "hakemuksen", "eteneminen", "tilanne"], ApplicationStatus),
    Entry(["käsittelyaika", "kuinka nopeasti", "milloin saan", "odottaa"], ProcessingTime),
    Entry(["muokkaa hakemus", "korjaa hakemus", "väärä tieto", "muuttaa hakemus"], ApplicationEdit),
    Entry(["lisätiedot", "dokumentit", "liite", "liitteet", "tiedosto", "tilinpäätös", "paperit", "asiakirjat"], Documents),
    Entry(["lataa dokumentti", "miten lähetän", "tiedostomuoto", "pdf"], DocumentUpload),
    Entry(["luottopäätös", "luotto", "päätös", "hyväksyntä", "luoton"], CreditDecision),
    Entry(["hylätty", "ei mennyt läpi", "kielteinen", "hylkäys", "miksi hylättiin"], CreditRejected),
    Entry(["leasing", "lea", "mitä on leasing", "miten leasing"], LeasingBasics),
    Entry(["ero", "laina", "pankki", "luotto", "rahoitus vai", "kumpi parempi"], LeasingVsLoan),
    Entry(["rahoitusleasing", "huoltoleasing", "käyttöleasing", "leasing tyyppi"], LeasingTypes),
    Entry(["takaisinvuokraus", "slb", "sale-leaseback", "sale", "myy", "omistan jo"], SaleLeaseback),
    Entry(["arvostus", "paljonko saan", "koneen arvo", "arviointi"], Valuation),
    Entry(["maksu", "kuukausi", "erä", "hinta", "kuukausierä", "maksaa", "paljonko"], MonthlyPayment),
    Entry(["maksutapa", "lasku", "e-lasku", "suoramaksu", "miten maksan"], PaymentMethods),
    Entry(["myöhässä", "viivästys", "maksamatta", "unohdin", "eräpäivä"], LatePayment),
    Entry(["maksuvaikeus", "ei pysty", "taloudellinen", "vaikea", "maksukyky"], PaymentDifficulties),
    Entry(["käsiraha", "ennakko", "alkumaksu", "omarahoitus", "ennakkovuokra"], DownPayment),
    Entry(["jäännösarvo", "lunastus", "osta", "omaksi", "loppu", "sopimuskauden jälkeen"], ResidualValue),
    Entry(["sopimuskausi", "aika", "kesto", "kausi", "pituus", "kuinka kauan", "kauanko"], ContractTerm),
    Entry(["alv", "vero", "verotus", "arvonlisävero", "vähennys"], Taxation),
    Entry(["osinko", "yrityksen raha", "varallisuus"], Dividends),
    Entry(["yrityskauppa", "myydä yritys", "omistajanvaihdos", "sukupolvenvaihdos"], BusinessSale),
    Entry(["konkurssi", "saneeraus", "maksukyvytön", "lopettaa yritys"], Bankruptcy),
    Entry(["vakuus", "takaus", "henkilötakaus", "vakuudet"], Collateral),
    Entry(["käytetty", "vanha", "käytetyn", "second hand", "ikä"], UsedMachines),
    Entry(["ohjelmisto", "software", "it-laite", "it-infra", "tietokone", "palvelin", "lisenssi"], Software),
    Entry(["prosessi", "miten toimii", "kuinka toimii", "toimii", "kauanko", "kestää", "aikataulu", "nopea"], Process),
    Entry(["nopeuttaa", "nopeammin", "kiire", "heti", "pikaisesti"], Speeding),
    Entry(["yhteyttä", "apu", "apua", "ihminen", "puhelin", "soita", "asiakaspalvelu", "kontakti", "sähköposti", "saan apua"], CustomerService),
    Entry(["takaisinsoitto", "soittaa", "puhelinnumero", "soittopyyntö"], Callback),
    Entry(["miksi", "ero muihin", "kilpailija", "parempi", "juuri", "juurirahoitus"], WhyUs),
    Entry(["yritys", "ytj", "tiedot", "y-tunnus", "yrityksen"], CompanyInfo),
    Entry(["kohde", "laite", "kone", "rahoite", "rahoitettav", "auto", "kuorma", "traktori", "kaivinkone"], Financed),
    Entry(["seuraava", "mitä nyt", "teen", "pitää", "tehdä"], NextStep),
    Entry(["terve", "moi", "hei", "hello", "hyvää", "päivää", "huomenta", "iltaa"], Greeting),
    Entry(["kiitos", "thanks", "ok", "selvä", "jees", "hyvä", "kyllä"], Thanks),
    Entry(["ongelma", "virhe", "ei toimi", "vika", "bugi", "jumissa"], Problems),
    Entry(["turvalli", "luotettav", "tietoturv", "yksityisyys", "gdpr", "tiedot"], Security)
  ]

  // The answers whose text depends on the context.

  function OffersAnswer(ctx: UserContext): string
  {
    var n := CountWithStatus(ctx.applications, OfferStatuses);
    if n > 0 then
      "Sinulla on " + IntToString(n) + " tarjous odottamassa! 🎉\n\nTarjoukset löytyvät hakemuksesi \"Tarjoukset\"-välilehdeltä. Voit hyväksyä tarjouksen ja hakea virallisen luottopäätöksen."
    else
      "Tarjoukset näkyvät hakemuksesi \"Tarjoukset\"-välilehdellä kun rahoittaja on lähettänyt tarjouksen. Käsittelemme hakemukset yleensä 1-2 arkipäivän sisällä."
  }

  function ContractsAnswer(ctx: UserContext): string
  {
    if FindWithStatus(ctx.applications, {"CONTRACT_SENT"}).Some? then
      "Sopimus odottaa allekirjoitustasi! 📝\n\nLöydät sopimuksen hakemuksesi \"Sopimukset\"-välilehdeltä. Voit ladata PDF:n, tarkistaa ehdot ja hyväksyä sopimuksen allekirjoitettavaksi."
    else
      "Sopimus lähetetään sinulle kun olet hyväksynyt tarjouksen ja luottopäätös on tehty. Allekirjoitus tapahtuu sähköisesti Visma Sign -palvelun kautta."
  }

  /** One line per application: its company and the label of its state. */
  function StatusLines(apps: seq<PortalApp>): (lines: seq<string>)
    ensures |lines| == |apps|
    ensures forall i :: 0 <= i < |apps| ==> lines[i] == "• " + apps[i].companyName + ": " + Labels.StatusLabel(apps[i].status)
  {
    seq(|apps|, i requires 0 <= i < |apps| => "• " + apps[i].companyName + ": " + Labels.StatusLabel(apps[i].status))
  }

  function ApplicationStatusAnswer(ctx: UserContext): string
  {
    if |ctx.applications| == 0 then "Sinulla ei ole vielä hakemuksia. Voit tehdä uuden hakemuksen etusivulta!"
    else "Hakemustesi tilanne:\n\n" + Join(StatusLines(ctx.applications), "\n") + "\n\nKlikkaa hakemusta nähdäksesi lisätiedot."
  }

  function DocumentsAnswer(ctx: UserContext): string
  {
    match FindWithStatus(ctx.applications, {"INFO_REQUESTED"})
    case Some(app) =>
      "Rahoittaja on pyytänyt lisätietoja hakemukseesi \"" + app.companyName + "\"! 📎\n\nAvaa hakemus ja lähetä pyydetyt dokumentit \"Viestit\"-välilehdeltä."
    case None =>
      "📎 Tyypillisesti tarvittavia dokumentteja:\n\n• Tilinpäätös (viimeisin)\n• Tulos ja tase -ajot (tuoreet)\n• Henkilötodistus (passi/henkilökortti)\n• Kuva kohteesta\n• Urakkasopimus (tarvittaessa)\n\nRahoittaja ilmoittaa mitä dokumentteja juuri sinun hakemukseesi tarvitaan."
  }

  function CreditDecisionAnswer(ctx: UserContext): string
  {
    if FindWithStatus(ctx.applications, {"CREDIT_DECISION_PENDING"}).Some? then
      "Luottopäätös on käsittelyssä! ⏳\n\nSaat tiedon päätöksestä sähköpostiisi. Käsittelyaika on yleensä 1-3 arkipäivää."
    else
      "Luottopäätös tehdään kun olet hyväksynyt tarjouksen ja toimittanut tarvittavat dokumentit.\n\nPäätökseen vaikuttavat:\n• Yrityksen taloustiedot\n• Maksuhäiriömerkinnät\n• Yrityksen ikä ja historia\n• Rahoitettavan kohteen arvo"
  }

  function CompanyInfoAnswer(ctx: UserContext): string
  {
    match ctx.ytjData
    case Some(y) =>
      "Yrityksesi tiedot YTJ:stä:\n\n🏢 " + OrElse(y.name, ctx.companyName)
      + "\n📍 " + OrElse(y.address, "Osoite ei saatavilla")
      + "\n🏭 Toimiala: " + OrElse(y.industry, "Ei tiedossa")
      + "\n📅 Perustettu: " + OrElse(y.registrationDate, "Ei tiedossa")
      + "\n\nTiedot haetaan automaattisesti hakemuksen yhteydessä."
    case None =>
      "Yritystietosi (" + ctx.companyName + ") haetaan automaattisesti YTJ:stä hakemuksen yhteydessä."
  }

  /** What to do next, by the state of the first application. */
  function NextStepAnswer(ctx: UserContext): string
  {
    if |ctx.applications| == 0 then "Sinulla ei ole vielä hakemusta. Tee uusi hakemus etusivulta!"
    else
      var status := ctx.applications[0].status;
      if status == "SUBMITTED" then
        "Hakemuksesi on vastaanotettu! ✅\n\nSeuraavaksi rahoittaja käsittelee hakemuksesi ja lähettää tarjouksen. Tämä kestää yleensä 1-2 arkipäivää."
      else if status == "OFFER_SENT" then
        "Sinulla on tarjous odottamassa! 🎉\n\nSeuraavaksi:\n1. Tarkista tarjous\n2. Hyväksy ja hae luottopäätös\n3. Toimita pyydetyt dokumentit"
      else if status == "OFFER_ACCEPTED" || status == "CREDIT_DECISION_PENDING" then
        "Luottopäätös on käsittelyssä! ⏳\n\nSeuraavaksi:\n• Toimita pyydetyt dokumentit jos et ole vielä\n• Odota luottopäätöstä (1-3 arkipäivää)"
      else if status == "CONTRACT_SENT" then
        "Sopimus odottaa allekirjoitustasi! 📝\n\nSeuraavaksi:\n1. Lataa ja tarkista sopimus\n2. Allekirjoita sähköisesti\n3. Rahoitus aktivoituu!"
      else
        "Hakemuksesi tila: " + Labels.StatusLabel(status) + "\n\nAvaa hakemus nähdäksesi lisätiedot."
  }

  function GreetingAnswer(ctx: UserContext): string
  {
    "Hei " + ctx.userName + "! 👋\n\nOlen Juuri-avustajasi. Tunnen yrityksesi " + ctx.companyName
    + " ja hakemustesi tilanteen.\n\nKysy rohkeasti rahoituksesta, prosessista tai hakemuksestasi!"
  }

  /** `item.answer(context)`. */
  function AnswerText(t: Topic, ctx: UserContext): string
  {
    match t
    case Offers => OffersAnswer(ctx)
    case OfferValidity => "Tarjoukset ovat tyypillisesti voimassa 14-30 päivää. Tarkka voimassaoloaika näkyy tarjouksessa.\n\nJos tarjous on umpeutunut, voit pyytää uuden tarjouksen ottamalla yhteyttä rahoittajaan hakemuksesi kautta."
    case Negotiation => "💬 Kyllä, tarjouksesta voi neuvotella!\n\nVoit pyytää rahoittajalta:\n• Pidempää/lyhyempää sopimuskautta\n• Erilaista käsirahaa\n• Erilaista jäännösarvoa\n\nLähetä viesti hakemuksesi kautta ja kerro mitä ehtoja haluaisit muuttaa. Rahoittaja tekee tarvittaessa uuden tarjouksen."
    case Contracts => ContractsAnswer(ctx)
    case ContractChange => "Sopimuksen muuttaminen kesken sopimuskauden on mahdollista tietyissä tilanteissa:\n\n✅ Mahdolliset muutokset:\n• Kohteen vaihto (järjestelymaksu)\n• Sopimuskauden pidentäminen\n• Ennenaikainen lunastus\n\n❌ Ei yleensä mahdollista:\n• Kuukausierän pienentäminen\n• Sopimuskauden lyhentäminen\n\nOta yhteyttä hakemuksesi kautta niin selvitetään mahdollisuudet!"
    case Termination => "⚠️ Leasingsopimus on sitova koko sopimuskauden ajan.\n\nVaihtoehdot kesken kauden:\n\n1️⃣ Ennenaikainen lunastus\n• Maksat jäljellä olevat erät + jäännösarvo\n• Kohde siirtyy omistukseesi\n\n2️⃣ Kohteen vaihto\n• Vaihdat uuteen koneeseen\n• Uusi sopimus tehdään\n\nOta yhteyttä rahoittajaan keskustellaksesi vaihtoehdoista."
    case ApplicationStatus => ApplicationStatusAnswer(ctx)
    case ProcessingTime => "⏱️ Tyypilliset käsittelyajat:\n\n• Tarjous hakemuksen jälkeen: 1-2 arkipäivää\n• Luottopäätös: 1-3 arkipäivää\n• Sopimus allekirjoitettavaksi: 1-2 arkipäivää\n\nKiireellisissä tapauksissa ota yhteyttä hakemuksesi kautta - pyrimme joustavuuteen!"
    case ApplicationEdit => "Jos hakemuksessa on virheellisiä tietoja:\n\n1. Lähetä viesti hakemuksesi \"Viestit\"-välilehdeltä\n2. Kerro mitä tietoja pitää korjata\n3. Rahoittaja päivittää tiedot\n\nHuom! Hakemuksen perustiedot (summa, kohde) vaikuttavat tarjoukseen, joten muutokset kannattaa tehdä ennen tarjousta."
    case Documents => DocumentsAnswer(ctx)
    case DocumentUpload => "Dokumenttien lähettäminen on helppoa:\n\n1. Avaa hakemuksesi \"Viestit\"-välilehti\n2. Klikkaa \"Lisää liite\" tai vedä tiedosto\n3. Lähetä viesti liitteineen\n\n📄 Tuetut muodot: PDF, JPG, PNG, DOC, XLS\n📦 Max koko: 10 MB per tiedosto"
    case CreditDecision => CreditDecisionAnswer(ctx)
    case CreditRejected => "Jos luottopäätös on kielteinen, syitä voivat olla:\n\n• Maksuhäiriömerkinnät\n• Heikko taloustilanne\n• Yritys liian nuori\n• Liian suuri rahoitustarve\n\n💡 Voit kokeilla:\n• Suurempaa käsirahaa\n• Pienempää rahoitussummaa\n• Hakea uudelleen myöhemmin\n\nOta yhteyttä niin keskustellaan vaihtoehdoista!"
    case LeasingBasics => "📋 Leasing on rahoitusmuoto, jossa:\n\n✅ Vuokraat koneen/laitteen kiinteällä kuukausierällä\n✅ Et sido pääomaa\n✅ Kuukausierä on vähennyskelpoinen kulu\n✅ Sopimuskauden lopussa voit lunastaa, palauttaa tai jatkaa\n\nLeasing sopii erityisesti yrityksille, jotka haluavat pitää käyttöpääoman vapaana ja ennustaa kulut tarkasti."
    case LeasingVsLoan => "📊 Leasing vs. Pankkilaina:\n\n💚 Leasing:\n• Ei sido pääomaa\n• Kiinteä kuukausierä\n• Vähennyskelpoinen kulu\n• Nopea prosessi\n• Kohde vakuutena\n\n🏦 Pankkilaina:\n• Kohde omaksi heti\n• Voi vaatia lisävakuuksia\n• Usein korkosidonnainen\n• Pidempi käsittelyaika\n\nLeasing on yleensä parempi valinta kalustohankintoihin!"
    case LeasingTypes => "📋 Leasing-tyypit:\n\n1️⃣ Rahoitusleasing (yleisin)\n• Kiinteä kuukausierä\n• Lunastus mahdollinen\n• Sopii koneisiin ja laitteisiin\n\n2️⃣ Käyttöleasing\n• Sisältää usein huollon\n• Lyhyempi sitoutuminen\n• Sopii autoihin\n\n3️⃣ Huoltoleasing\n• Sisältää huolto- ja ylläpitopalvelut\n• Kokonaiskustannus selvillä\n\nJuuri Rahoituksessa käytämme pääasiassa rahoitusleasingiä."
    case SaleLeaseback => "💰 Takaisinvuokraus (Sale-Leaseback):\n\nMyyt omistamasi koneen rahoitusyhtiölle ja vuokraat sen takaisin itsellesi.\n\n✅ Edut:\n• Vapautat pääomaa kassaan heti\n• Jatkat koneen käyttöä normaalisti\n• Kiinteä kuukausierä\n• Parantaa kassavirtaa\n\nSopii erinomaisesti käyttöpääoman vahvistamiseen tai uusiin investointeihin!"
    case Valuation => "💎 Koneen arvostus takaisinvuokrauksessa:\n\n• Perustuu kohteen käypään markkina-arvoon\n• Huomioi iän, kunnon ja käyttötunnit\n• Tyypillisesti 60-80% uushankintahinnasta\n\nTee hakemus niin rahoittaja arvioi kohteesi arvon ja tekee tarjouksen!"
    case MonthlyPayment => "💰 Kuukausierä koostuu:\n\n• Pääoman lyhennys\n• Korko\n• Laskutuslisä (n. 9€/kk)\n\nErän suuruuteen vaikuttavat:\n• Rahoitettava summa\n• Sopimuskausi (24-72 kk)\n• Käsiraha\n• Jäännösarvo\n\nTarkka kuukausierä näkyy tarjouksessa. ALV 25,5% lisätään erään."
    case PaymentMethods => "💳 Maksutavat:\n\n• E-lasku (suositus)\n• Paperilasku\n• Suoramaksu\n\nLasku tulee kuukausittain ja eräpäivä on tyypillisesti kuun 15. tai viimeinen päivä. Voit vaihtaa maksutapaa ottamalla yhteyttä."
    case LatePayment => "⚠️ Jos maksu on myöhässä:\n\n1. Maksa lasku mahdollisimman pian\n2. Myöhästyneestä maksusta peritään viivästyskorko\n3. Toistuvat myöhästymiset voivat johtaa perintään\n\n💡 Jos tiedät etukäteen ongelmista, ota heti yhteyttä - löydämme usein ratkaisun!"
    case PaymentDifficulties => "🆘 Maksuvaikeuksissa toimi näin:\n\n1️⃣ Ota HETI yhteyttä rahoittajaan\n2️⃣ Kerro tilanteesta avoimesti\n3️⃣ Yhdessä etsitään ratkaisu\n\n💚 Mahdollisia järjestelyjä:\n• Maksuajan pidennys\n• Maksuerän pienennys väliaikaisesti\n• Maksuvapaa kuukausi\n\nÄlä jätä laskuja maksamatta ilman yhteydenottoa!"
    case DownPayment => "💵 Käsiraha (ennakkovuokra):\n\n• Vapaaehtoinen alkumaksu\n• Pienentää rahoitettavaa summaa\n• Laskee kuukausierää\n• Voi parantaa rahoitusehtoja\n\n❓ Onko pakollinen?\nEi! Voit rahoittaa myös 100% kohteen arvosta ilman käsirahaa."
    case ResidualValue => "📊 Jäännösarvo:\n\nSumma, jolla voit lunastaa kohteen sopimuskauden päätyttyä.\n\n• Sovitaan etukäteen (tyypillisesti 0-20%)\n• Suurempi jäännösarvo = pienempi kuukausierä\n\n🔚 Sopimuskauden lopussa voit:\n1. Lunastaa kohteen (maksat jäännösarvon)\n2. Palauttaa kohteen\n3. Jatkaa sopimusta uudella kaudella"
    case ContractTerm => "📅 Sopimuskausi:\n\nTyypillisesti 24-72 kuukautta.\n\n⚡ Lyhyempi kausi (24-36 kk):\n• Suurempi kuukausierä\n• Nopeampi lunastus\n• Sopii nopeasti kuluviin kohteisiin\n\n🔄 Pidempi kausi (48-72 kk):\n• Pienempi kuukausierä\n• Sopii kalliimmille kohteille\n• Parempi kassavirta\n\nValitse yrityksellesi sopiva kausi!"
    case Taxation => "🧾 ALV ja verotus leasingissä:\n\n✅ ALV-käsittely:\n• Kuukausierään lisätään ALV 25,5%\n• ALV-velvollinen yritys vähentää ALV:n normaalisti\n\n✅ Tuloverotus:\n• Kuukausierät ovat vähennyskelpoista liiketoiminnan kulua\n• Ei poistoja kirjanpitoon\n\nLeasing on verotuksellisesti edullinen tapa hankkia kalustoa!"
    case Dividends => "💼 Leasing ja yrityksen talous:\n\nLeasing ei sido yrityksen pääomaa, joten:\n\n✅ Käyttöpääoma pysyy vapaana\n✅ Osinkoja voidaan jakaa normaalisti\n✅ Tase ei rasitu samalla tavalla kuin lainassa\n✅ Tunnusluvut (esim. omavaraisuus) eivät heikkene yhtä paljon\n\nLeasing on kassavirran kannalta järkevä valinta!"
    case BusinessSale => "🏢 Leasingsopimus yrityskaupassa:\n\nJos yritys vaihtaa omistajaa:\n\n1. Ilmoita rahoittajalle heti\n2. Sopimus voidaan siirtää uudelle omistajalle\n3. Uusi omistaja käy läpi luottokelpoisuusarvioinnin\n4. Siirto vaatii rahoittajan hyväksynnän\n\nOta yhteyttä ajoissa niin hoidetaan siirto sujuvasti!"
    case Bankruptcy => "⚠️ Konkurssi/saneeraustilanteessa:\n\n🔴 Konkurssi:\n• Leasingkohde palautetaan rahoittajalle\n• Pesänhoitaja hoitaa käytännön järjestelyt\n\n🟡 Yrityssaneeraus:\n• Sopimus voidaan usein jatkaa\n• Ehdoista neuvotellaan saneerausohjelmassa\n\n💚 Ota yhteyttä heti kun tilanne selviää - etsitään yhdessä paras ratkaisu!"
    case Collateral => "🔐 Vakuudet leasingissä:\n\n✅ Pääsääntöisesti EI tarvita lisävakuuksia\n• Rahoitettava kohde toimii vakuutena\n\n❓ Milloin voidaan pyytää:\n• Henkilötakaus (nuori/pieni yritys)\n• Lisävakuus (erityisen suuri rahoitus)\n\nVakuustarve selviää luottopäätöksen yhteydessä."
    case UsedMachines => "🔧 Käytetyt koneet ja laitteet:\n\n✅ Rahoitamme myös käytettyjä koneita!\n\nHuomioitavaa:\n• Kohteen kunto arvioidaan\n• Ikä vaikuttaa sopimuskauden pituuteen\n• Käyttötunnit huomioidaan\n\n💡 Takaisinvuokraus sopii erityisen hyvin jo omistetuille käytetyille koneille!"
    case Software => "💻 IT-laitteet ja ohjelmistot:\n\n✅ Rahoitamme:\n• Tietokoneet ja palvelimet\n• IT-infrastruktuuri\n• Tuotannonohjausjärjestelmät\n\n❌ Emme yleensä rahoita:\n• Pelkkiä ohjelmistolisenssejä\n• SaaS-palveluita\n\nLisätietoja? Kysy hakemuksen yhteydessä!"
    case Process => "⚡ Rahoitusprosessi vaihe vaiheelta:\n\n1️⃣ Hakemus (5 min)\n2️⃣ Tarjous (1-2 arkipäivää)\n3️⃣ Hyväksyntä + dokumentit\n4️⃣ Luottopäätös (1-3 arkipäivää)\n5️⃣ Sopimus allekirjoitettavaksi\n6️⃣ Rahoitus aktivoituu!\n\n📅 Kokonaisuudessaan tyypillisesti 3-7 arkipäivää. Kiireellisissä tapauksissa jopa nopeammin!"
    case Speeding => "⚡ Näin nopeutat prosessia:\n\n1. Täytä hakemus huolellisesti\n2. Lisää kaikki dokumentit heti\n3. Vastaa lisätietopyyntöihin nopeasti\n4. Mainitse kiireestä hakemuksessa\n\n💡 Kiireellisissä tapauksissa lähetä viesti hakemuksesi kautta!"
    case CustomerService => "📞 Ota yhteyttä:\n\n💬 Nopein tapa: Viesti hakemuksen kautta\n→ Rahoittaja näkee kaikki tietosi suoraan\n\n📧 Sähköposti: info@juurirahoitus.fi\n\nHakemuksesi kautta lähetetty viesti menee suoraan rahoittajalle ja saat nopeimman vastauksen!"
    case Callback => "📞 Haluatko takaisinsoiton?\n\nLähetä viesti hakemuksesi kautta ja kerro:\n• Puhelinnumerosi\n• Sopiva soittoaika\n• Mitä asia koskee\n\nRahoittaja soittaa sinulle sovittuna aikana!"
    case WhyUs => "💚 Miksi Juuri Rahoitus?\n\n✅ Nopea prosessi (jopa 3 päivää)\n✅ Kilpailukykyiset ehdot\n✅ Henkilökohtainen palvelu\n✅ Erikoistunut konerahoitukseen\n✅ Suomalainen toimija\n✅ Joustava ja ymmärtävä\n\nMe ymmärrämme yrittäjän arkea ja teemme rahoituksesta helppoa!"
    case CompanyInfo => CompanyInfoAnswer(ctx)
    case Financed => "🏗️ Rahoitamme laajasti erilaisia koneita:\n\n🚛 Kuorma-autot ja perävaunut\n🚜 Maatalous- ja metsäkoneet\n🏗️ Kaivurit ja pyöräkuormaajat\n🏭 Tuotantolaitteet\n💻 IT-laitteet\n🔧 Työkalut ja erikoiskoneet\n\nJos et ole varma, kysy - arvioimme jokaisen hakemuksen!"
    case NextStep => NextStepAnswer(ctx)
    case Greeting => GreetingAnswer(ctx)
    case Thanks => "Ole hyvä! 😊 Olen täällä jos tarvitset lisäapua. Onnea rahoitushakemukseen!"
    case Problems => "🔧 Jos kohtaat teknisiä ongelmia:\n\n1. Päivitä sivu (F5)\n2. Tyhjennä selaimen välimuisti\n3. Kokeile toisella selaimella\n\n💬 Jos ongelma jatkuu:\nLähetä viesti hakemuksesi kautta tai info@juurirahoitus.fi"
    case Security => "🔒 Tietoturva ja luotettavuus:\n\n✅ Salattu HTTPS-yhteys\n✅ EU:n tietosuoja-asetus (GDPR)\n✅ Tiedot säilytetään Suomessa\n✅ Suomalainen toimija\n\nTietosi ovat turvassa meillä!"  }

  /** The topics whose item has an `actions` function. */
  predicate HasActionsFunction(t: Topic)
  {
    t in {Offers, Contracts, ApplicationStatus, Documents, NextStep}
  }

  /** A single primary button opening the page of `app`, or none. */
  function OpenButton(title: string, app: Option<PortalApp>): (r: seq<QuickAction>)
  {
    match app
    case Some(a) => [QuickAction(title, Some(ApplicationPage(a)), Primary)]
    case None => []
  }

  /**
   * `item.actions ? item.actions(context, navigate) : []`: no buttons for
   * an item without an actions function; otherwise at most one primary
   * button, opening the dashboard or the page of one of the customer's
   * applications.
   */
  function Actions(t: Topic, ctx: UserContext): (r: seq<QuickAction>)
    ensures !HasActionsFunction(t) ==> r == []
    ensures |r| <= 1
    ensures forall k :: 0 <= k < |r| ==> r[k].variant == Primary && r[k].target.Some?
    ensures forall k :: 0 <= k < |r| ==>
              (r[k].target == Some("/dashboard")
               || exists i :: 0 <= i < |ctx.applications| && r[k].target == Some(ApplicationPage(ctx.applications[i])))
    ensures t == ApplicationStatus ==> |r| == 1
    ensures t == NextStep ==> (|r| == 1 <==> |ctx.applications| > 0)
  {
    match t
    case Offers => OpenButton("Katso tarjous", FindWithStatus(ctx.applications, OfferStatuses))
    case Contracts => OpenButton("Avaa sopimus", FindWithStatus(ctx.applications, {"CONTRACT_SENT"}))
    case ApplicationStatus => [QuickAction("Näytä hakemukset", Some("/dashboard"), Primary)]
    case Documents => OpenButton("Lähetä dokumentit", FindWithStatus(ctx.applications, {"INFO_REQUESTED"}))
    case NextStep =>
      if |ctx.applications| > 0 then [QuickAction("Avaa hakemus", Some(ApplicationPage(ctx.applications[0])), Primary)] else []
    case _ => []
  }

  // ---------------------------------------------------------------------
  // Matching
  // ---------------------------------------------------------------------

  /** The topic of the first item, in list order, with a keyword in the lower-cased question. */
  function FindTopic(question: string): (t: Option<Topic>)
    ensures forall i :: IsFirstMatch(PortalKnowledge, EntryKeywords, ToLower(question), i) ==> t == Some(PortalKnowledge[i].topic)
    ensures t.None? <==> forall i :: 0 <= i < |PortalKnowledge| ==> !MatchesSome(ToLower(question), EntryKeywords(PortalKnowledge[i]))
  {
    FirstMatchSelects(PortalKnowledge, EntryKeywords, ToLower(question));
    match FirstMatch(PortalKnowledge, EntryKeywords, ToLower(question))
    case Some(i) => Some(PortalKnowledge[i].topic)
    case None => None
  }

  /** Matching ignores case. */
  lemma CaseInsensitive(question: string)
    ensures FindTopic(ToLower(question)) == FindTopic(question)
  {
    ToLowerIdempotent(question);
  }

  /** Each keyword of the leasing-types item contains "lea". */
  lemma LeaInLeasingTypes(k: nat)
    requires k < |PortalKnowledge[15].keywords|
    ensures Contains(PortalKnowledge[15].keywords[k], "lea")
  {
    var kw := PortalKnowledge[15].keywords[k];
    assert kw == ["rahoitusleasing", "huoltoleasing", "käyttöleasing", "leasing tyyppi"][k];
    var at := [8, 6, 6, 0][k];
    assert kw[at..at + 3] == "lea";
    assert OccursAt(kw, "lea", at);
    ContainsIff(kw, "lea");
  }

  /**
   * As written, the leasing-types item is never the first match: every one
   * of its keywords contains "lea", a keyword of the earlier leasing item,
   * so its answer is never given.
   */
  lemma LeasingTypesNeverSelected(question: string)
    ensures PortalKnowledge[13].topic == LeasingBasics && PortalKnowledge[15].topic == LeasingTypes
    ensures !IsFirstMatch(PortalKnowledge, EntryKeywords, ToLower(question), 15)
  {
    var q := ToLower(question);
    if MatchesSome(q, EntryKeywords(PortalKnowledge[15])) {
      var k :| 0 <= k < |PortalKnowledge[15].keywords| && Contains(q, PortalKnowledge[15].keywords[k]);
      LeaInLeasingTypes(k);
      ContainsTrans(q, PortalKnowledge[15].keywords[k], "lea");
      assert PortalKnowledge[13].keywords[1] == "lea";
      assert MatchesSome(q, EntryKeywords(PortalKnowledge[13]));
    }
  }

  /** The corrected matcher: the item with the longest keyword in the question, the earliest on ties. */
  function BestTopic(question: string): Option<Topic>
  {
    match BestMatch(PortalKnowledge, EntryKeywords, ToLower(question))
    case Some(i) => Some(PortalKnowledge[i].topic)
    case None => None
  }

  /** The corrected matcher falls back exactly when the first-match rule does, and otherwise picks a best item. */
  lemma BestTopicSpec(question: string)
    ensures BestTopic(question).None? <==> FindTopic(question).None?
    ensures BestTopic(question).Some? ==>
              exists i :: IsBestMatch(PortalKnowledge, EntryKeywords, ToLower(question), i)
                          && BestTopic(question) == Some(PortalKnowledge[i].topic)
  {
  }

  /** "rahoitusleasing" is not a keyword of items `lo` to `lo + 4`. */
  lemma NotListedIn5(lo: nat)
    requires lo in {0, 5, 10}
    ensures forall j, k :: lo <= j < lo + 5 && 0 <= k < |PortalKnowledge[j].keywords| ==>
              PortalKnowledge[j].keywords[k] != "rahoitusleasing"
  {
  }

  /** "rahoitusleasing" is not a keyword of any item before the leasing-types item. */
  lemma RahoitusleasingFirstListedAt15(j: nat)
    requires j < 15
    ensures "rahoitusleasing" !in EntryKeywords(PortalKnowledge[j])
  {
    NotListedIn5(j / 5 * 5);
  }

  /** With the corrected matcher, asking about "rahoitusleasing" reaches the leasing-types item. */
  lemma LeasingTypesReachedCorrectly(question: string)
    requires ToLower(question) == "rahoitusleasing"
    ensures BestTopic(question) == Some(LeasingTypes)
  {
    assert PortalKnowledge[15].keywords[0] == "rahoitusleasing";
    forall j | 0 <= j < 15
      ensures PortalKnowledge[15].keywords[0] !in EntryKeywords(PortalKnowledge[j])
    {
      RahoitusleasingFirstListedAt15(j);
    }
    VerbatimKeywordWins(PortalKnowledge, EntryKeywords, 15, 0);
  }

  // ---------------------------------------------------------------------
  // The fallback
  // ---------------------------------------------------------------------

  const OfferLine: string := "• \"Näytä tarjoukseni\""
  const InfoLine: string := "• \"Mitä dokumentteja tarvitaan?\""
  const ContractLine: string := "• \"Miten allekirjoitan sopimuksen?\""

  const GeneralSuggestions: seq<string> := [
    "• \"Missä hakemukseni on?\"",
    "• \"Mitä seuraavaksi?\"",
    "• \"Mitä on leasing?\"",
    "• \"Miten prosessi toimii?\"",
    "• \"Miten saan apua?\""
  ]

  /** The position of a status-based suggestion among the three. */
  function StatusRank(line: string): int
  {
    if line == OfferLine then 0 else if line == InfoLine then 1 else 2
  }

  /**
   * The suggestions pushed for the customer's states: one for an offer sent,
   * one for information requested, one for a contract sent, in that order.
   */
  function StatusSuggestions(apps: seq<PortalApp>): seq<string>
  {
    (if HasStatus(apps, "OFFER_SENT") then [OfferLine] else [])
    + (if HasStatus(apps, "INFO_REQUESTED") then [InfoLine] else [])
    + (if HasStatus(apps, "CONTRACT_SENT") then [ContractLine] else [])
  }

  /** At most three, each present exactly when an application is in its state, in the order offer, information, contract. */
  lemma StatusSuggestionsShape(apps: seq<PortalApp>)
    ensures |StatusSuggestions(apps)| <= 3
    ensures OfferLine in StatusSuggestions(apps) <==> HasStatus(apps, "OFFER_SENT")
    ensures InfoLine in StatusSuggestions(apps) <==> HasStatus(apps, "INFO_REQUESTED")
    ensures ContractLine in StatusSuggestions(apps) <==> HasStatus(apps, "CONTRACT_SENT")
    ensures forall i, j :: 0 <= i < j < |StatusSuggestions(apps)| ==>
              StatusRank(StatusSuggestions(apps)[i]) < StatusRank(StatusSuggestions(apps)[j])
  {
  }

  /** The five suggestions the fallback lists: the status-based ones, then the general ones. */
  function ListedSuggestions(apps: seq<PortalApp>): seq<string>
  {
    (StatusSuggestions(apps) + GeneralSuggestions)[..5]
  }

  /** Exactly five are listed; the status-based ones come first, and general ones fill the rest in their order. */
  lemma ListedSuggestionsShape(apps: seq<PortalApp>)
    ensures |ListedSuggestions(apps)| == 5
    ensures ListedSuggestions(apps) == StatusSuggestions(apps) + GeneralSuggestions[..5 - |StatusSuggestions(apps)|]
    ensures GeneralSuggestions[0] in ListedSuggestions(apps) && GeneralSuggestions[1] in ListedSuggestions(apps)
  {
    StatusSuggestionsShape(apps);
    var s := StatusSuggestions(apps);
    var listed := ListedSuggestions(apps);
    assert listed == s + GeneralSuggestions[..5 - |s|] by {
      forall k | 0 <= k < 5
        ensures listed[k] == (s + GeneralSuggestions[..5 - |s|])[k]
      {
        if k >= |s| {
          assert listed[k] == GeneralSuggestions[k - |s|];
        }
      }
    }
    assert listed[|s|] == GeneralSuggestions[0] && listed[|s| + 1] == GeneralSuggestions[1];
  }

  function FallbackText(userName: string, listed: seq<string>): string
  {
    "Hyvä kysymys, " + userName + "! 🤔\n\nVoit kysyä minulta esimerkiksi:\n\n" + Join(listed, "\n")
    + "\n\nTai kirjoita oma kysymyksesi alla olevaan kenttään."
  }

  /** The fallback's button: open the first application, when there is one. */
  function FallbackActions(ctx: UserContext): (r: seq<QuickAction>)
    ensures |r| == 1 <==> |ctx.applications| > 0
    ensures |r| <= 1
    ensures |r| == 1 ==> r[0] == QuickAction("Avaa hakemukseni", Some(ApplicationPage(ctx.applications[0])), Primary)
  {
    if |ctx.applications| > 0 then [QuickAction("Avaa hakemukseni", Some(ApplicationPage(ctx.applications[0])), Primary)] else []
  }

  /**
   * What `findContextualAnswer` returns: the first matching item's answer and
   * actions (none when the item has no actions function), or the fallback
   * listing five suggestions.
   */
  function Reply(question: string, ctx: UserContext): (string, seq<QuickAction>)
  {
    match FindTopic(question)
    case Some(t) => (AnswerText(t, ctx), Actions(t, ctx))
    case None => (FallbackText(ctx.userName, ListedSuggestions(ctx.applications)), FallbackActions(ctx))
  }

  /** The first matching item answers, with its own actions. */
  lemma ReplyOfFirstMatch(question: string, ctx: UserContext, i: int)
    requires IsFirstMatch(PortalKnowledge, EntryKeywords, ToLower(question), i)
    ensures Reply(question, ctx) == (AnswerText(PortalKnowledge[i].topic, ctx), Actions(PortalKnowledge[i].topic, ctx))
  {
  }

  /** With no matching item, the fallback answers. */
  lemma ReplyWithoutMatch(question: string, ctx: UserContext)
    requires forall i :: 0 <= i < |PortalKnowledge| ==> !MatchesSome(ToLower(question), EntryKeywords(PortalKnowledge[i]))
    ensures Reply(question, ctx) == (FallbackText(ctx.userName, ListedSuggestions(ctx.applications)), FallbackActions(ctx))
  {
  }

  /** The fallback's contextual suggestions, pushed one state at a time. */
  method PushStatusSuggestions(apps: seq<PortalApp>, suggestions: seq<string>) returns (r: seq<string>)
    ensures r == suggestions + StatusSuggestions(apps)
  {
    r := suggestions;
    if HasStatus(apps, "OFFER_SENT") {
      r := r + [OfferLine];
    }
    if HasStatus(apps, "INFO_REQUESTED") {
      r := r + [InfoLine];
    }
    if HasStatus(apps, "CONTRACT_SENT") {
      r := r + [ContractLine];
    }
  }

  /** The fallback of `findContextualAnswer`: contextual then general suggestions, and the action button. */
  method FallbackReply(ctx: UserContext) returns (answer: string, actions: seq<QuickAction>)
    ensures answer == FallbackText(ctx.userName, ListedSuggestions(ctx.applications))
    ensures actions == FallbackActions(ctx)
  {
    var suggestions: seq<string> := [];
    var defaultActions: seq<QuickAction> := [];
    suggestions := PushStatusSuggestions(ctx.applications, suggestions);
    suggestions := suggestions + [GeneralSuggestions[0]];
    suggestions := suggestions + [GeneralSuggestions[1]];
    suggestions := suggestions + [GeneralSuggestions[2]];
    suggestions := suggestions + [GeneralSuggestions[3]];
    suggestions := suggestions + [GeneralSuggestions[4]];
    assert suggestions == StatusSuggestions(ctx.applications) + GeneralSuggestions;
    if |ctx.applications| > 0 {
      defaultActions := defaultActions + [QuickAction("Avaa hakemukseni", Some(ApplicationPage(ctx.applications[0])), Primary)];
    }
    answer := FallbackText(ctx.userName, suggestions[..5]);
    actions := defaultActions;
  }

  /** `findContextualAnswer`: the answer and actions of the first matching item, else the fallback. */
  method FindContextualAnswer(question: string, ctx: UserContext) returns (answer: string, actions: seq<QuickAction>)
    ensures (answer, actions) == Reply(question, ctx)
  {
    var t := FindTopic(question);
    if t.Some? {
      answer, actions := AnswerText(t.value, ctx), Actions(t.value, ctx);
    } else {
      answer, actions := FallbackReply(ctx);
    }
  }

  // ---------------------------------------------------------------------
  // Smart suggestions
  // ---------------------------------------------------------------------

  /** The position of a pending-item button among the three. */
  function PendingRank(title: string): int
  {
    if title == "🎉 Tarjous odottaa!" then 0 else if title == "📎 Lisätietoja pyydetty" then 1 else 2
  }

  /** One primary button per pending kind: an offer, an information request, a contract. */
  function PendingSuggestions(apps: seq<PortalApp>): seq<QuickAction>
  {
    OpenButton("🎉 Tarjous odottaa!", FindWithStatus(apps, OfferStatuses))
    + OpenButton("📎 Lisätietoja pyydetty", FindWithStatus(apps, {"INFO_REQUESTED"}))
    + OpenButton("📝 Sopimus odottaa", FindWithStatus(apps, {"CONTRACT_SENT"}))
  }

  /** There is a pending button exactly when some application waits on the customer. */
  lemma PendingWhenWaiting(apps: seq<PortalApp>)
    ensures PendingSuggestions(apps) == [] <==>
              forall i :: 0 <= i < |apps| ==> apps[i].status !in {"OFFER_SENT", "OFFER_RECEIVED", "INFO_REQUESTED", "CONTRACT_SENT"}
  {
  }

  /** At most three primary buttons, each opening one of the applications, in the order offer, information, contract. */
  lemma PendingSuggestionsShape(apps: seq<PortalApp>)
    ensures |PendingSuggestions(apps)| <= 3
    ensures forall k :: 0 <= k < |PendingSuggestions(apps)| ==>
              (PendingSuggestions(apps)[k].variant == Primary
               && exists i :: 0 <= i < |apps| && PendingSuggestions(apps)[k].target == Some(ApplicationPage(apps[i])))
    ensures forall k, m :: 0 <= k < m < |PendingSuggestions(apps)| ==>
              PendingRank(PendingSuggestions(apps)[k].title) < PendingRank(PendingSuggestions(apps)[m].title)
  {
  }

  /** The two questions offered when nothing is pending; their buttons do nothing but ask. */
  const DefaultSuggestions: seq<QuickAction> := [
    QuickAction("Missä hakemukseni on?", None, Secondary),
    QuickAction("Miten saan apua?", None, Secondary)
  ]

  /** `getSmartSuggestions`, built by pushing and cut to three. */
  method SmartSuggestions(ctx: UserContext) returns (r: seq<QuickAction>)
    ensures |r| <= 3
    ensures PendingSuggestions(ctx.applications) != [] ==> r == PendingSuggestions(ctx.applications)
    ensures PendingSuggestions(ctx.applications) == [] ==> r == DefaultSuggestions
  {
    var suggestions: seq<QuickAction> := [];
    var offerPending := FindWithStatus(ctx.applications, OfferStatuses);
    if offerPending.Some? {
      suggestions := suggestions + [QuickAction("🎉 Tarjous odottaa!", Some(ApplicationPage(offerPending.value)), Primary)];
    }
    var infoRequest := FindWithStatus(ctx.applications, {"INFO_REQUESTED"});
    if infoRequest.Some? {
      suggestions := suggestions + [QuickAction("📎 Lisätietoja pyydetty", Some(ApplicationPage(infoRequest.value)), Primary)];
    }
    var contractPending := FindWithStatus(ctx.applications, {"CONTRACT_SENT"});
    if contractPending.Some? {
      suggestions := suggestions + [QuickAction("📝 Sopimus odottaa", Some(ApplicationPage(contractPending.value)), Primary)];
    }
    assert suggestions == PendingSuggestions(ctx.applications);
    PendingSuggestionsShape(ctx.applications);
    if |suggestions| == 0 {
      suggestions := suggestions + [QuickAction("Missä hakemukseni on?", None, Secondary)];
      suggestions := suggestions + [QuickAction("Miten saan apua?", None, Secondary)];
    }
    r := suggestions[..if |suggestions| < 3 then |suggestions| else 3];
  }

  /** The defaults are questions: pressing one asks it. */
  lemma DefaultsAreQuestions()
    ensures forall k :: 0 <= k < |DefaultSuggestions| ==> Contains(DefaultSuggestions[k].title, "?")
  {
    forall k | 0 <= k < |DefaultSuggestions|
      ensures Contains(DefaultSuggestions[k].title, "?")
    {
      var title := DefaultSuggestions[k].title;
      var at := [20, 15][k];
      assert title[at..at + 1] == "?";
      assert OccursAt(title, "?", at);
      ContainsIff(title, "?");
    }
  }

  // ---------------------------------------------------------------------
  // The panel
  // ---------------------------------------------------------------------

  datatype Role = User | Bot

  datatype PortalMessage = PortalMessage(id: int, role: Role, content: string, actions: seq<QuickAction>)

  /**
   * A question whose reply is on its timer. The timer's closure holds the
   * question and the user context of the moment it was sent, so the reply
   * is fixed when the question is asked.
   */
  datatype Pending = Pending(question: string, answer: string, actions: seq<QuickAction>)

  /**
   * The assistant's state: the conversation, the text being typed, whether
   * the window is open, the typing indicator, and the replies still on their
   * timers in the order asked. The input stays enabled while a reply is
   * pending, so several can be waiting at once.
   */
  datatype Panel = Panel(messages: seq<PortalMessage>, input: string, isOpen: bool, isTyping: bool, queued: seq<Pending>)

  /** How the panel replies to a question; for the signed-in customer it is `PortalReplies(ctx)`. */
  type Answerer = string -> (string, seq<QuickAction>)

  function PortalReplies(ctx: UserContext): Answerer
  {
    q => Reply(q, ctx)
  }

  /**
   * `handleSend(customMessage)`: the text is the custom message, or the input
   * when that is missing or empty; a blank text changes nothing. Otherwise
   * the question is appended (stamped `now`), the input is cleared, the
   * typing indicator is switched on and the reply to the question is put on
   * a timer.
   */
  function Send(p: Panel, customMessage: Option<string>, replies: Answerer, now: int): (r: Panel)
    ensures IsBlank(OrElse(customMessage, p.input)) ==> r == p
    ensures !IsBlank(OrElse(customMessage, p.input)) ==>
              r.input == "" && r.isOpen == p.isOpen && r.isTyping
              && r.messages == p.messages + [PortalMessage(now, User, OrElse(customMessage, p.input), [])]
    ensures !IsBlank(OrElse(customMessage, p.input)) ==>
              var text := OrElse(customMessage, p.input);
              r.queued == p.queued + [Pending(text, replies(text).0, replies(text).1)] && |r.queued| == |p.queued| + 1
  {
    var text := OrElse(customMessage, p.input);
    if IsBlank(text) then p
    else
      var reply := replies(text);
      Panel(p.messages + [PortalMessage(now, User, text, [])], "", p.isOpen, true, p.queued + [Pending(text, reply.0, reply.1)])
  }

  /**
   * The timer of the `i`-th waiting reply fires. Each timer has its own
   * random delay, so any waiting reply may come next. It is appended with
   * its buttons, its id one more than the clock reading `later`, and the
   * typing indicator goes off, even when other replies are still waiting.
   */
  function Deliver(p: Panel, i: nat, later: int): (r: Panel)
    requires i < |p.queued|
    ensures r.messages == p.messages + [PortalMessage(later + 1, Bot, p.queued[i].answer, p.queued[i].actions)]
    ensures r.queued == p.queued[..i] + p.queued[i + 1..] && |r.queued| == |p.queued| - 1
    ensures multiset(r.queued) + multiset{p.queued[i]} == multiset(p.queued)
    ensures r.input == p.input && r.isOpen == p.isOpen && !r.isTyping
  {
    assert p.queued == p.queued[..i] + [p.queued[i]] + p.queued[i + 1..];
    Panel(p.messages + [PortalMessage(later + 1, Bot, p.queued[i].answer, p.queued[i].actions)], p.input, p.isOpen, false,
          p.queued[..i] + p.queued[i + 1..])
  }

  /** A custom message is sent in place of whatever is typed, unless it is empty. */
  lemma CustomMessageWins(p: Panel, m: string, replies: Answerer, now: int)
    requires m != "" && !IsBlank(m)
    ensures Send(p, Some(m), replies, now).messages[|p.messages|].content == m
    ensures Send(p, Some(m), replies, now).queued[|p.queued|] == Pending(m, replies(m).0, replies(m).1)
  {
  }

  /** A question answered before the next is asked: the question, then its reply with its buttons. */
  lemma SendThenDeliver(p: Panel, customMessage: Option<string>, replies: Answerer, now: int, later: int)
    requires !IsBlank(OrElse(customMessage, p.input))
    ensures var text := OrElse(customMessage, p.input);
            var r := Deliver(Send(p, customMessage, replies, now), |p.queued|, later);
            r.messages == p.messages + [PortalMessage(now, User, text, []), PortalMessage(later + 1, Bot, replies(text).0, replies(text).1)]
            && r.queued == p.queued && r.input == "" && !r.isTyping
  {
  }

  /**
   * Two questions asked before either reply arrives: the second reply may
   * come first, so the conversation reads Q1, Q2, A2, A1.
   */
  lemma RepliesOutOfOrder(p: Panel, q1: string, q2: string, replies: Answerer, t1: int, t2: int, l1: int, l2: int)
    requires q1 != "" && q2 != "" && !IsBlank(q1) && !IsBlank(q2)
    ensures var asked := Send(Send(p, Some(q1), replies, t1), Some(q2), replies, t2);
            var r := Deliver(Deliver(asked, |p.queued| + 1, l2), |p.queued|, l1);
            r.messages == p.messages + [PortalMessage(t1, User, q1, []), PortalMessage(t2, User, q2, []),
                                        PortalMessage(l2 + 1, Bot, replies(q2).0, replies(q2).1),
                                        PortalMessage(l1 + 1, Bot, replies(q1).0, replies(q1).1)]
            && r.queued == p.queued
  {
  }

  /**
   * `handleQuickAction`: a label with a question mark is asked as a
   * question; any other button opens its page (if it has one) and closes
   * the window. The second component is the page opened.
   */
  function HandleQuickAction(p: Panel, a: QuickAction, replies: Answerer, now: int): (r: (Panel, Option<string>))
    ensures Contains(a.title, "?") ==> r.1.None? && r.0.isOpen == p.isOpen
    ensures Contains(a.title, "?") ==> r.0 == Send(p, Some(a.title), replies, now)
    ensures !Contains(a.title, "?") ==> r.0 == p.(isOpen := false)
    ensures !Contains(a.title, "?") ==> r.1 == a.target
  {
    if Contains(a.title, "?") then (Send(p, Some(a.title), replies, now), None)
    else (p.(isOpen := false), a.target)
  }

  /** A question button asks its own label, whatever is typed, and queues the reply to it. */
  lemma QuestionButtonAsksLabel(p: Panel, a: QuickAction, replies: Answerer, now: int)
    requires Contains(a.title, "?")
    ensures var r := HandleQuickAction(p, a, replies, now).0;
            |r.messages| == |p.messages| + 1 && r.input == ""
            && r.messages[|p.messages|].content == a.title
            && r.queued == p.queued + [Pending(a.title, replies(a.title).0, replies(a.title).1)]
  {
    ContainsIff(a.title, "?");
    var i :| OccursAt(a.title, "?", i);
    assert a.title[i] == '?';
    assert !IsBlank(a.title) by {
      BlankIff(a.title);
    }
  }

  /** The assistant is not shown on the landing, login and registration pages. */
  predicate Shown(path: string)
  {
    path != "/" && path != "/login" && path != "/register"
  }

  /** Every page the assistant's buttons open shows the assistant. */
  lemma ShownWhereButtonsLead(ctx: UserContext, t: Topic)
    ensures forall k :: 0 <= k < |Actions(t, ctx)| ==> Shown(Actions(t, ctx)[k].target.value)
    ensures forall k :: 0 <= k < |PendingSuggestions(ctx.applications)| ==>
              Shown(PendingSuggestions(ctx.applications)[k].target.value)
  {
    PendingSuggestionsShape(ctx.applications);
    forall app: PortalApp
      ensures Shown(ApplicationPage(app))
    {
      assert |ApplicationPage(app)| >= |ApplicationPath|;
    }
    assert Shown("/dashboard");
  }
}
