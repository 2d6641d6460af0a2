/** The segregation tips table: a constant, process-wide mapping from a
    coarse waste-category key to the guidance shown to the user. */
module Tips {

  /** One entry of the table: the display category, the ordered tips and the
      environmental-impact sentence. */
  datatype Profile = Profile(category: string, tips: seq<string>, impact: string)

  const DryWaste := "Dry Waste (Sukha Kachra)"

  const Table: map<string, Profile> := map[
    "plastic" := Profile(DryWaste,
      ["Rinse the item...", "Crush bottles...", "Remove caps...", "Check recycling symbol...", "Keep soft plastics separate."],
      "Recycling one ton of plastic can save 7,500 kWh of electricity."),
    "paper" := Profile(DryWaste,
      ["Ensure paper is clean...", "Remove wrapping...", "Staples usually fine...", "Avoid shredding...", "Flatten paper."],
      "Recycling one ton of paper saves 17 trees."),
    "cardboard" := Profile(DryWaste,
      ["Flatten boxes...", "Remove tape...", "Keep dry...", "Avoid greasy pizza boxes...", "Stack neatly."],
      "Recycling cardboard uses 75% less energy."),
    "metal" := Profile(DryWaste,
      ["Rinse cans...", "Watch sharp edges...", "Labels can stay...", "Do not crush aerosol...", "Foil can be recycled if clean."],
      "One recycled aluminum can saves enough energy to run a TV for 3 hours."),
    "glass" := Profile(DryWaste,
      ["Rinse bottles...", "Remove lids...", "Don’t recycle broken glass...", "No mirrors/bulbs...", "Separate by color if required."],
      "Recycling glass cuts pollution significantly."),
    "organic" := Profile("Wet Waste (Geela Kachra)",
      ["Use a bin with lid...", "Include peels...", "Avoid too much oil/meat...", "Line bin with newspaper...", "Use for composting."],
      "Composting reduces methane emissions."),
    "trash" := Profile("Reject Waste",
      ["For non-recyclables...", "Includes chip packets...", "Styrofoam & tissues...", "Always check packaging...", "Reduce non-recyclables."],
      "Segregating trash prevents contamination of recyclables.")
  ]

  /** The fallback entry used when a key is not in the table. */
  const Fallback := "trash"

  /** `segregationTips[key] || segregationTips['trash']` for a key that is
      one of the table's own keys or no property of the object at all; it
      never fails and always yields a complete entry. Names inherited from
      `Object.prototype` (such as "constructor") are not modelled: only the
      seven category keys are ever looked up. */
  function Lookup(key: string): (p: Profile)
    ensures p in Table.Values && Complete(p)
  {
    TableComplete();
    if key in Table then Table[key] else Table[Fallback]
  }

  /** Every entry is complete: a display category, five tips and an impact
      sentence, none of them empty. */
  predicate Complete(p: Profile)
  {
    p.category != "" && |p.tips| == 5 && p.impact != ""
    && forall i | 0 <= i < |p.tips| :: p.tips[i] != ""
  }

  lemma TableComplete()
    ensures Fallback in Table
    ensures forall key | key in Table :: Complete(Table[key])
  {
  }
}
