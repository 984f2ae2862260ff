/** The two languages the assistant speaks. */
module Languages {
  datatype Lang = Zh | En
}
