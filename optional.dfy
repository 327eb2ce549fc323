/** An optional value: `null`/absent state on the pages, an absent JSON
    field in the export route, and NaN from `parseInt`. */
module Optional {

  datatype Option<+T> = None | Some(value: T)
}
