/** The job record the client receives and edits (the fields the components read). */
module JobRecord {
  import opened Wrappers

  /**
   * A job as the client holds it. The salary keys may be absent
   * (`undefined`): a fixed-salary job has no range keys and a ranged job
   * has no `fixedSalary` key.
   */
  datatype Job = Job(
    id: string,
    title: string,
    description: string,
    category: string,
    country: string,
    city: string,
    location: string,
    fixedSalary: Option<string>,
    salaryFrom: Option<string>,
    salaryTo: Option<string>,
    expired: bool)
}
