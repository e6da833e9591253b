/**
 * The usage-tracking views of gweb/payments/views.py: the free-tier gate on
 * question and audio generation, and the monthly reset of the counters.
 * The usage counters live on a UserProfile (is_premium, questions_generated,
 * audio_minutes_used, image_actions). views.py imports UserProfile from
 * models.py, but models.py defines no such model, so its fields are taken
 * from the views that use them.
 */
module UsageViews {
  import opened Wrappers
  import opened Faults
  import opened Http
  import opened PaymentRecords

  /** A UserProfile row. Audio minutes are exact reals, not IEEE floats. */
  datatype Profile = Profile(isPremium: bool, questionsGenerated: int, audioMinutesUsed: real, imageActions: int)

  /** The free-tier ceilings. */
  const QuestionLimit: int := 20
  const AudioMinuteLimit: real := 10.0

  /** Question types a free account may not ask for. */
  const PremiumOnlyTypes: set<string> := {"theory", "true_false", "fill_in"}
  const DefaultQuestionType: string := "mcq"
  const DefaultMinutes: real := 1.0

  const QuestionLimitError: string := "Free question limit reached. Upgrade to premium."
  const PremiumTypeError: string := "This question type requires a premium account."
  const AudioLimitError: string := "Free audio limit reached. Upgrade to premium."
  const AudioUrl: string := "https://example.com/audio/output.mp3"

  /** A quota view refused: JsonResponse({'error': ...}), still with status 200. */
  predicate Refused(r: Response) {
    r.body.Fields? && "error" in r.body.fields
  }

  /** The reply to a granted question request. */
  function QuestionText(questionType: string): string {
    "Sample " + questionType + " question."
  }

  /**
   * generate_question on one profile. A free account is refused first when its
   * counter has reached the ceiling and then when the type is premium-only;
   * a granted free request adds one to the counter; a premium account is
   * never refused and its profile never changes.
   */
  function AskQuestion(p: Profile, questionType: string): (out: (Response, Profile))
    ensures Refused(out.0) <==> !p.isPremium && (p.questionsGenerated >= QuestionLimit || questionType in PremiumOnlyTypes)
    ensures !p.isPremium && p.questionsGenerated >= QuestionLimit ==> out.0 == JsonReply(200, "error", QuestionLimitError)
    ensures !p.isPremium && p.questionsGenerated < QuestionLimit && questionType in PremiumOnlyTypes ==>
      out.0 == JsonReply(200, "error", PremiumTypeError)
    ensures !Refused(out.0) ==> out.0 == JsonReply(200, "question", QuestionText(questionType))
    ensures Refused(out.0) || p.isPremium ==> out.1 == p
    ensures !Refused(out.0) && !p.isPremium ==> out.1 == p.(questionsGenerated := p.questionsGenerated + 1)
  {
    if !p.isPremium && p.questionsGenerated >= QuestionLimit then (JsonReply(200, "error", QuestionLimitError), p)
    else if !p.isPremium && questionType in PremiumOnlyTypes then (JsonReply(200, "error", PremiumTypeError), p)
    else
      var reply := JsonReply(200, "question", QuestionText(questionType));
      if p.isPremium then (reply, p) else (reply, p.(questionsGenerated := p.questionsGenerated + 1))
  }

  /**
   * generate_audio on one profile: a free account is refused exactly when
   * used + minutes would pass 10; otherwise it is charged the minutes, which
   * may be negative, since the view does not check their sign.
   */
  function AskAudio(p: Profile, minutes: real): (out: (Response, Profile))
    ensures Refused(out.0) <==> !p.isPremium && p.audioMinutesUsed + minutes > AudioMinuteLimit
    ensures Refused(out.0) ==> out.0 == JsonReply(200, "error", AudioLimitError)
    ensures !Refused(out.0) ==> out.0 == JsonReply(200, "audio_url", AudioUrl)
    ensures Refused(out.0) || p.isPremium ==> out.1 == p
    ensures !Refused(out.0) && !p.isPremium ==> out.1 == p.(audioMinutesUsed := p.audioMinutesUsed + minutes)
  {
    if !p.isPremium && p.audioMinutesUsed + minutes > AudioMinuteLimit then (JsonReply(200, "error", AudioLimitError), p)
    else
      var reply := JsonReply(200, "audio_url", AudioUrl);
      if p.isPremium then (reply, p) else (reply, p.(audioMinutesUsed := p.audioMinutesUsed + minutes))
  }

  /**
   * The generate_question view: the type parameter defaults to mcq, and a
   * user without a profile makes request.user.userprofile raise.
   */
  function GenerateQuestion(profiles: map<UserId, Profile>, user: UserId, typeParam: Option<string>)
    : (out: (Response, map<UserId, Profile>))
    ensures user !in profiles ==> out == (ServerError(MissingProfile), profiles)
    ensures user in profiles ==> out.1.Keys == profiles.Keys
    ensures forall u :: u in profiles && u != user ==> out.1[u] == profiles[u]
    ensures user in profiles ==>
      var asked := AskQuestion(profiles[user], if typeParam.Some? then typeParam.value else DefaultQuestionType);
      out.0 == asked.0 && out.1[user] == asked.1
  {
    if user !in profiles then (ServerError(MissingProfile), profiles)
    else
      var questionType := if typeParam.Some? then typeParam.value else DefaultQuestionType;
      var (reply, p) := AskQuestion(profiles[user], questionType);
      (reply, profiles[user := p])
  }

  /** The generate_audio view: minutes defaults to 1.0. */
  function GenerateAudio(profiles: map<UserId, Profile>, user: UserId, minutesParam: Option<real>)
    : (out: (Response, map<UserId, Profile>))
    ensures user !in profiles ==> out == (ServerError(MissingProfile), profiles)
    ensures user in profiles ==> out.1.Keys == profiles.Keys
    ensures forall u :: u in profiles && u != user ==> out.1[u] == profiles[u]
    ensures user in profiles ==>
      var asked := AskAudio(profiles[user], if minutesParam.Some? then minutesParam.value else DefaultMinutes);
      out.0 == asked.0 && out.1[user] == asked.1
  {
    if user !in profiles then (ServerError(MissingProfile), profiles)
    else
      var minutes := if minutesParam.Some? then minutesParam.value else DefaultMinutes;
      var (reply, p) := AskAudio(profiles[user], minutes);
      (reply, profiles[user := p])
  }

  /** A free profile at the start of a period. */
  function Cleared(p: Profile): Profile {
    p.(questionsGenerated := 0, audioMinutesUsed := 0.0, imageActions := 0)
  }

  /** reset_usage: zero all three counters of every free profile; leave premium ones alone. */
  function ResetUsage(profiles: map<UserId, Profile>): (r: map<UserId, Profile>)
    ensures r.Keys == profiles.Keys
    ensures forall u :: u in r && !profiles[u].isPremium ==>
      r[u].questionsGenerated == 0 && r[u].audioMinutesUsed == 0.0 && r[u].imageActions == 0 && !r[u].isPremium
    ensures forall u :: u in r && profiles[u].isPremium ==> r[u] == profiles[u]
  {
    map u | u in profiles :: if profiles[u].isPremium then profiles[u] else Cleared(profiles[u])
  }

  /** Running reset_usage twice is the same as running it once. */
  lemma ResetIdempotent(profiles: map<UserId, Profile>)
    ensures ResetUsage(ResetUsage(profiles)) == ResetUsage(profiles)
  {
    var once := ResetUsage(profiles);
    var twice := ResetUsage(once);
    forall u | u in once
      ensures twice[u] == once[u]
    {
    }
  }

  /** After a reset every free user may again ask for an mcq question and for up to 10 audio minutes. */
  lemma ResetRestoresQuota(profiles: map<UserId, Profile>, user: UserId, minutes: real)
    requires user in profiles && !profiles[user].isPremium
    requires minutes <= AudioMinuteLimit
    ensures !Refused(GenerateQuestion(ResetUsage(profiles), user, None).0)
    ensures !Refused(GenerateAudio(ResetUsage(profiles), user, Some(minutes)).0)
  {
  }

  /** A run of generate_question calls: the final profile and how many were granted. */
  function AskQuestions(p: Profile, types: seq<string>): (Profile, nat)
    decreases |types|
  {
    if types == [] then (p, 0)
    else
      var (reply, q) := AskQuestion(p, types[0]);
      var (last, granted) := AskQuestions(q, types[1..]);
      (last, granted + if Refused(reply) then 0 else 1)
  }

  /**
   * Over any run, a free account's counter counts exactly the granted
   * requests and never passes 20 once at or below it; so a free account gets
   * at most 20 - questions_generated questions before the next reset.
   */
  lemma {:induction false} QuestionCeilingHolds(p: Profile, types: seq<string>)
    requires !p.isPremium
    ensures var (last, granted) := AskQuestions(p, types);
      && !last.isPremium
      && last.questionsGenerated == p.questionsGenerated + granted
      && (p.questionsGenerated <= QuestionLimit ==> last.questionsGenerated <= QuestionLimit)
      && (p.questionsGenerated >= QuestionLimit ==> granted == 0)
    decreases |types|
  {
    if types != [] {
      var (_, q) := AskQuestion(p, types[0]);
      QuestionCeilingHolds(q, types[1..]);
    }
  }

  /** A premium account is granted every request of any run and its profile never changes. */
  lemma {:induction false} PremiumQuestionsUnmetered(p: Profile, types: seq<string>)
    requires p.isPremium
    ensures AskQuestions(p, types) == (p, |types|)
    decreases |types|
  {
    if types != [] {
      PremiumQuestionsUnmetered(p, types[1..]);
    }
  }

  /** A run of generate_audio calls: the final profile and the minutes granted in total. */
  function AskAudios(p: Profile, minutes: seq<real>): (Profile, real)
    decreases |minutes|
  {
    if minutes == [] then (p, 0.0)
    else
      var (reply, q) := AskAudio(p, minutes[0]);
      var (last, granted) := AskAudios(q, minutes[1..]);
      (last, granted + if Refused(reply) then 0.0 else minutes[0])
  }

  /**
   * Over any run, whatever the signs of the requested minutes, a free
   * account is charged exactly what it was granted and stays within 10
   * minutes once within them.
   */
  lemma {:induction false} AudioCeilingHolds(p: Profile, minutes: seq<real>)
    requires !p.isPremium
    ensures var (last, granted) := AskAudios(p, minutes);
      && !last.isPremium
      && last.audioMinutesUsed == p.audioMinutesUsed + granted
      && (p.audioMinutesUsed <= AudioMinuteLimit ==> last.audioMinutesUsed <= AudioMinuteLimit)
    decreases |minutes|
  {
    if minutes != [] {
      var (_, q) := AskAudio(p, minutes[0]);
      AudioCeilingHolds(q, minutes[1..]);
    }
  }

  /** Negative minutes are granted to a free account and lower its recorded usage. */
  lemma NegativeMinutesRefund(p: Profile, minutes: real)
    requires !p.isPremium && p.audioMinutesUsed <= AudioMinuteLimit && minutes < 0.0
    ensures !Refused(AskAudio(p, minutes).0)
    ensures AskAudio(p, minutes).1.audioMinutesUsed < p.audioMinutesUsed
  {
  }
}
