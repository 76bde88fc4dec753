/** Small result types shared by the modules of the boot agent model. */
module Outcomes {

  /** An optional value. */
  datatype Option<T> = None | Some(value: T)

  /** The outcome of reading one body from the instance metadata service
      (http.Get followed by ioutil.ReadAll): either of the two can fail. */
  datatype Fetch<T> = FetchError | Fetched(value: T)
}
