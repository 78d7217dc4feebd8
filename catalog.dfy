/**
 * The static reference data of the calculator: the five training
 * offerings and the three travel zones, as closed enumerations with
 * total lookup functions in place of `find` over an array.
 */
module Catalog {

  /** Offering ids: "cyber-2h", "cyber-half", "m365", "ai-half", "ai-full". */
  datatype FormationId = Cyber2h | CyberHalf | M365 | AiHalf | AiFull

  /** Delivery mode: "presentiel" (on-site) or "distanciel" (remote). */
  datatype Mode = Presentiel | Distanciel

  /** Travel zone ids: "local", "regional", "distant". */
  datatype ZoneId = Local | Regional | Distant

  /** The offering's name; it holds no '-', so " - " in a label ends it. */
  function FormationName(f: FormationId): (name: string)
    ensures '-' !in name
  {
    match f
    case Cyber2h => "Formation Cybersécurité"
    case CyberHalf => "Formation Cybersécurité"
    case M365 => "Formation aux Outils Collaboratifs M365"
    case AiHalf => "Formation IA"
    case AiFull => "Formation IA"
  }

  function FormationDuration(f: FormationId): string
  {
    match f
    case Cyber2h => "2 heures"
    case CyberHalf => "½ journée"
    case M365 => "1 journée"
    case AiHalf => "½ journée"
    case AiFull => "1 journée"
  }

  /** The label a quotation echoes: name, " - ", duration. */
  function FormationLabel(f: FormationId): string
  {
    FormationName(f) + " - " + FormationDuration(f)
  }

  /** An offering is a half-day one when its duration text contains '½'. */
  predicate IsHalfDay(f: FormationId)
  {
    '½' in FormationDuration(f)
  }

  /**
   * Billed days per session: 0.5 for a half-day offering, 1 otherwise.
   * The short "2 heures" offering has no '½' in its duration text and is
   * therefore billed as a full day.
   */
  function BaseDays(f: FormationId): (d: real)
    ensures d == (if f == CyberHalf || f == AiHalf then 0.5 else 1.0)
  {
    if IsHalfDay(f) then 0.5 else 1.0
  }

  function ModeLabel(m: Mode): string
  {
    match m
    case Presentiel => "Présentiel"
    case Distanciel => "Distanciel"
  }

  function ZoneName(z: ZoneId): string
  {
    match z
    case Local => "Local"
    case Regional => "Régional"
    case Distant => "Distante"
  }

  /** The zone's `pricing` field, read as a number. */
  function ZonePricing(z: ZoneId): real
  {
    match z
    case Local => 0.0
    case Regional => 180.0
    case Distant => 300.0
  }
}
