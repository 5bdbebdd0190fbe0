/** The context enumerations nested in the Java `User` entity, shared by the
    interaction records and the context and exploration engines. */
module ContextTypes {
  datatype Mood = HAPPY | SAD | ENERGETIC | CALM | FOCUSED | PARTY | ROMANTIC | NEUTRAL
  datatype Activity = WORKING | EXERCISING | STUDYING | RELAXING | COMMUTING | SOCIALIZING | GENERAL
  datatype TimeOfDay = MORNING | DAY | EVENING | NIGHT

  /** `mood.name().toLowerCase()`. */
  function MoodName(m: Mood): string {
    match m
    case HAPPY => "happy"
    case SAD => "sad"
    case ENERGETIC => "energetic"
    case CALM => "calm"
    case FOCUSED => "focused"
    case PARTY => "party"
    case ROMANTIC => "romantic"
    case NEUTRAL => "neutral"
  }

  /** `activity.name().toLowerCase()`. */
  function ActivityName(a: Activity): string {
    match a
    case WORKING => "working"
    case EXERCISING => "exercising"
    case STUDYING => "studying"
    case RELAXING => "relaxing"
    case COMMUTING => "commuting"
    case SOCIALIZING => "socializing"
    case GENERAL => "general"
  }

  /** `timeOfDay.name().toLowerCase()`. */
  function TimeName(t: TimeOfDay): string {
    match t
    case MORNING => "morning"
    case DAY => "day"
    case EVENING => "evening"
    case NIGHT => "night"
  }
}
