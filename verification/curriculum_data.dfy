/** The curriculum records shared by the generator and the curriculum view. */
module CurriculumData {
  import opened Wrappers

  /** A study resource; `kind` is the JSON field `type` ("free" or "paid"). */
  datatype Resource = Resource(title: string, url: string, kind: string)

  /** One week of a curriculum. `resources` may be missing from the generated
      JSON; `completed` is false when the field is missing. */
  datatype Module = Module(
    week: int,
    subject: string,
    title: string,
    learningOutcomes: seq<string>,
    activities: seq<string>,
    resources: Option<seq<Resource>>,
    completed: bool)
}
