/** The build status shown in the top bar and the badge variant chosen for it. */
module StatusBadge {

  /** The three statuses the page knows. */
  datatype Status = NotStarted | InProgress | Shipped

  /** The text of each status, as displayed. */
  function Label(st: Status): string {
    match st
    case NotStarted => "Not Started"
    case InProgress => "In Progress"
    case Shipped => "Shipped"
  }

  /**
   The badge variant for a status text: "In Progress" and "Shipped" have their own
   variants and every other text falls through to "not-started".
   */
  function NormalizeLabel(text: string): (r: string)
    ensures r == "in-progress" <==> text == "In Progress"
    ensures r == "shipped" <==> text == "Shipped"
    ensures r == "not-started" <==> text != "In Progress" && text != "Shipped"
  {
    if text == "In Progress" then "in-progress"
    else if text == "Shipped" then "shipped"
    else "not-started"
  }

  /** The badge variant of a status. */
  function Variant(st: Status): (r: string)
    ensures st == NotStarted ==> r == "not-started"
    ensures st == InProgress ==> r == "in-progress"
    ensures st == Shipped ==> r == "shipped"
  {
    NormalizeLabel(Label(st))
  }

  /** Reads a status back from its badge variant. */
  function StatusOfVariant(variant: string): (r: Status)
    ensures variant == "in-progress" ==> r == InProgress
    ensures variant == "shipped" ==> r == Shipped
    ensures variant == "not-started" ==> r == NotStarted
  {
    if variant == "in-progress" then InProgress
    else if variant == "shipped" then Shipped
    else NotStarted
  }

  /** The variant determines the status: the mapping is injective and StatusOfVariant inverts it. */
  lemma VariantInjective(a: Status, b: Status)
    ensures StatusOfVariant(Variant(a)) == a
    ensures Variant(a) == Variant(b) ==> a == b
  {
  }
}
