/** Option and Result values, standing in for Python's missing keys and for `st.error` + `st.stop()`. */
module Results {

  datatype Option<+T> = None | Some(value: T)

  datatype Result<+T, +E> = Success(value: T) | Failure(error: E)
}
