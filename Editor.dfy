/** The JSON editor the task and process pages embed: each change reports whether the
    text parses (`error === false`) and the parsed object. */
module Editor {
  import opened Json

  datatype EditorChange = EditorChange(errorFree: bool, jsObject: Json)
}
