/** Value types shared by the backend and the browser client. */
module Common {

  datatype Option<+T> = None | Some(value: T)

  /** The outcome of one HTTP request made through the axios client:
      the response body, or a rejected promise. */
  datatype Response<+T> = Ok(data: T) | Failed

  /** The three roles a message is stored and rendered with: "user", "model" and "error". */
  datatype Role = UserRole | ModelRole | ErrorRole

  /** What a message carries in its `content` field: a string, or the
      `{text, imageUrl}` object that an image reply is stored with. */
  datatype Content = Text(text: string) | Picture(text: string, imageUrl: string)

  /** JavaScript truthiness of a value that is a string, `null` or `undefined`:
      only a non-empty string is truthy. */
  predicate Truthy(s: Option<string>) {
    s.Some? && s.value != ""
  }
}
