/** Label sets as the Prometheus libraries keep them: name/value pairs sorted by name. */
module Labels {

  datatype Label = Label(name: string, value: string)

  type LabelSet = seq<Label>

  /** The value of the first label called `name`, the empty string when there is none. */
  function Get(ls: LabelSet, name: string): string {
    if ls == [] then "" else if ls[0].name == name then ls[0].value else Get(ls[1..], name)
  }
}
