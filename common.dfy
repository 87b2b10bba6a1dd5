/** Values shared by every calculator: optional form fields and the gender selector. */
module Common {

  /** An optional value: a form field that has not been filled in, or a result slot that is empty. */
  datatype Option<+T> = None | Some(value: T)

  /** The two entries of every gender selector. */
  datatype Gender = Male | Female

  /** A numeric form field after parseFloat: None when the text is empty or not a number (NaN).
      A field counts as filled in when it parsed and is not zero: the calculators test it with
      JavaScript truthiness, for which both NaN and 0 are false. */
  predicate Given(field: Option<real>)
  {
    field.Some? && field.value != 0.0
  }

  /** The same test for a field read with parseInt. */
  predicate GivenInt(field: Option<int>)
  {
    field.Some? && field.value != 0
  }
}
