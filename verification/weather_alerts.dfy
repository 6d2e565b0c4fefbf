/**
 * The alerts panel: an empty list renders a single "no active alerts"
 * panel; otherwise a count badge and one card per alert, whose icon and
 * border colour are chosen by the alert's severity.
 */
module WeatherAlerts {

  datatype AlertKind = Warning | Watch | Advisory | Emergency

  /** One weather alert. Severity is matched as a string, so every string is a severity. */
  datatype Alert = Alert(
    id: string,
    kind: AlertKind,
    title: string,
    description: string,
    severity: string,
    startTime: int,  // milliseconds since the epoch
    endTime: int
  )

  /** The four colour families the panel uses for severities. */
  datatype Hue = Red | Orange | Yellow | Blue

  datatype Glyph = Zap | AlertTriangle | AlertCircle | Info

  /** An icon with the colour class it is drawn in. */
  datatype AlertIcon = AlertIcon(glyph: Glyph, hue: Hue)

  /** The border and background classes of a card drawn in colour family `h`. */
  function CardClasses(h: Hue): string
  {
    match h
    case Red => "border-red-500 bg-red-900/20"
    case Orange => "border-orange-500 bg-orange-900/20"
    case Yellow => "border-yellow-500 bg-yellow-900/20"
    case Blue => "border-blue-500 bg-blue-900/20"
  }

  /** `getAlertIcon`: the icon for a severity; every unlisted severity, "low" included, gets the blue info icon. */
  function IconFor(severity: string): (icon: AlertIcon)
    ensures icon.glyph == Zap <==> severity == "extreme"
    ensures icon.glyph == AlertTriangle <==> severity == "high"
    ensures icon.glyph == AlertCircle <==> severity == "medium"
    ensures icon.glyph == Info <==> severity !in {"extreme", "high", "medium"}
    ensures icon.hue == match icon.glyph
      case Zap => Red
      case AlertTriangle => Orange
      case AlertCircle => Yellow
      case Info => Blue
  {
    match severity
    case "extreme" => AlertIcon(Zap, Red)
    case "high" => AlertIcon(AlertTriangle, Orange)
    case "medium" => AlertIcon(AlertCircle, Yellow)
    case _ => AlertIcon(Info, Blue)
  }

  /** `getAlertColor`: the card classes for a severity, with the same partition as the icon. */
  function ColorFor(severity: string): (classes: string)
    ensures classes == "border-red-500 bg-red-900/20" <==> severity == "extreme"
    ensures classes == "border-orange-500 bg-orange-900/20" <==> severity == "high"
    ensures classes == "border-yellow-500 bg-yellow-900/20" <==> severity == "medium"
    ensures classes == "border-blue-500 bg-blue-900/20" <==> severity !in {"extreme", "high", "medium"}
  {
    match severity
    case "extreme" => "border-red-500 bg-red-900/20"
    case "high" => "border-orange-500 bg-orange-900/20"
    case "medium" => "border-yellow-500 bg-yellow-900/20"
    case _ => "border-blue-500 bg-blue-900/20"
  }

  /** For every severity the icon and the card border are drawn in the same colour family. */
  lemma IconAndBorderShareHue(severity: string)
    ensures ColorFor(severity) == CardClasses(IconFor(severity).hue)
  {
    if severity !in {"extreme", "high", "medium"} {
      assert IconFor(severity).hue == Blue;
    }
  }

  /** One rendered alert card. */
  datatype AlertCard = AlertCard(
    key: string,
    classes: string,
    icon: AlertIcon,
    title: string,
    description: string,
    startTime: int,
    endTime: int
  )

  /** What the panel renders. */
  datatype AlertsView = NoAlertsPanel | AlertList(badge: nat, cards: seq<AlertCard>)

  function CardFor(alert: Alert): AlertCard
  {
    AlertCard(alert.id, ColorFor(alert.severity), IconFor(alert.severity),
              alert.title, alert.description, alert.startTime, alert.endTime)
  }

  /**
   * The panel for a list of alerts: the "no active alerts" panel exactly when
   * the list is empty, and otherwise a badge with the number of alerts and
   * one card per alert, in input order, keyed by the alert's id.
   */
  function Render(alerts: seq<Alert>): (view: AlertsView)
    ensures view.NoAlertsPanel? <==> alerts == []
    ensures view.AlertList? ==> view.badge == |alerts| && |view.cards| == |alerts|
    ensures view.AlertList? ==> forall i :: 0 <= i < |alerts| ==>
      && view.cards[i].key == alerts[i].id
      && view.cards[i].icon == IconFor(alerts[i].severity)
      && view.cards[i].classes == ColorFor(alerts[i].severity)
      && view.cards[i].title == alerts[i].title
      && view.cards[i].description == alerts[i].description
  {
    if |alerts| == 0 then NoAlertsPanel
    else AlertList(|alerts|, seq(|alerts|, i requires 0 <= i < |alerts| => CardFor(alerts[i])))
  }
}
