/** The stock Option type: a nullable column, an absent argument, a query with no row. */
module Options {

  datatype Option<+T> = None | Some(value: T)
}
