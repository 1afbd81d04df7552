/** What a request handler hands back: a rendered template with its context,
    a redirect, or an unhandled exception (an HTTP 500). */
module Pages {
  import opened Wrappers
  import opened Places
  import opened Clients

  const LoginPath := "/login"
  const FormPath := "/form"

  datatype Template = RegisterHtml | LoginHtml | FormHtml | ResultsHtml

  /** The template context: each key the handlers may set, absent when a
      handler does not set it. The framework's `request` entry is left out. */
  datatype Context = Context(
    error: Option<string>,
    message: Option<string>,
    username: Option<string>,
    location: Option<string>,
    places: Option<seq<Place>>,
    weather: Option<Weather>)

  datatype Outcome =
    | Render(template: Template, context: Context)
    | Redirect(url: string)
    | ServerError

  const EmptyContext := Context(None, None, None, None, None, None)

  function ErrorContext(error: string): Context
  {
    EmptyContext.(error := Some(error))
  }

  function MessageContext(message: string): Context
  {
    EmptyContext.(message := Some(message))
  }

  function UserContext(username: string): Context
  {
    EmptyContext.(username := Some(username))
  }
}
