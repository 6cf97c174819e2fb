/** The status badge: a colour name looked up in a fixed class table, gray when unknown. */
module Badge {

  /** The colour-name to style-class table. */
  const ColorClasses: map<string, string> := map[
    "blue" := "bg-blue-100 text-blue-800",
    "red" := "bg-red-100 text-red-800",
    "green" := "bg-green-100 text-green-800",
    "yellow" := "bg-yellow-100 text-yellow-800",
    "purple" := "bg-purple-100 text-purple-800",
    "gray" := "bg-gray-100 text-gray-800"
  ]

  const GRAY_CLASS: string := "bg-gray-100 text-gray-800"

  /** `colorClasses[color] || colorClasses.gray`: total, and always an entry of the table. */
  function SelectedColorClass(color: string): (c: string)
    ensures c in ColorClasses.Values
    ensures color in ColorClasses ==> c == ColorClasses[color]
    ensures color !in ColorClasses ==> c == GRAY_CLASS
  {
    if color in ColorClasses && ColorClasses[color] != "" then ColorClasses[color] else ColorClasses["gray"]
  }

  /** Each of the six colour names has its own class: the table is injective. */
  lemma ColorClassesDistinct(a: string, b: string)
    requires a in ColorClasses && b in ColorClasses && a != b
    ensures ColorClasses[a] != ColorClasses[b]
  {
  }

  /** Only "gray" and the unknown names select the gray class. */
  lemma GrayOnlyForGrayOrUnknown(color: string)
    ensures SelectedColorClass(color) == GRAY_CLASS <==> color == "gray" || color !in ColorClasses
  {
    if color in ColorClasses && color != "gray" {
      ColorClassesDistinct(color, "gray");
    }
  }

  /** The rendered badge: a span with the selected class around the text. */
  datatype Span = Span(className: string, text: string)

  function Render(text: string, color: string): (s: Span)
    ensures s.text == text
    ensures s.className == SelectedColorClass(color)
    ensures s.className in ColorClasses.Values
  {
    Span(SelectedColorClass(color), text)
  }
}
