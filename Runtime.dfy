/**
 * What the core sees of its libraries: the router's navigation, axios's default headers, the
 * shape of a failed request, and Next.js's server-side page results.
 */
module Runtime {
  import opened Wrappers

  const AuthorizationHeader: string := "Authorization"
  const HomeRoute: string := "/"
  const DashboardRoute: string := "/dashboard"

  /** `Router.push`, recorded as the sequence of routes pushed so far. */
  class Router {
    var history: seq<string>

    constructor ()
      ensures history == []
    {
      history := [];
    }

    method Push(route: string)
      modifies this
      ensures history == old(history) + [route]
    {
      history := history + [route];
    }
  }

  /** `api.defaults.headers.common` of one axios instance. */
  class HeaderDefaults {
    var common: map<string, string>

    constructor ()
      ensures common == map[]
    {
      common := map[];
    }
  }

  /** The config of a request, as kept by axios for a failed request: `headers` is absent when the
   *  config or its headers are `undefined`. */
  datatype RequestConfig = RequestConfig(id: nat, headers: Option<map<string, string>>)

  /** `error.response`: the status and the application's `data.code`, when the server answered. */
  datatype ErrorResponse = ErrorResponse(status: int, code: Option<string>)

  /** An `AxiosError`: the config of the failed request and the response, if any. */
  datatype AxiosError = AxiosError(config: RequestConfig, response: Option<ErrorResponse>)

  /** What a promise of the core can be rejected with. */
  datatype Failure =
    | AuthTokenError          // `new AuthTokenError()`
    | Axios(error: AxiosError) // an error object as axios produced it
    | InvalidToken            // `jwt-decode` could not decode the token
    | Other(message: string)  // anything else a page's own code throws

  /** `GetServerSidePropsResult`. */
  datatype PageResult<P> = Props(props: P) | Redirect(destination: string, permanent: bool) | NotFound

  /** How the promise returned for a server-side page settles. */
  datatype Outcome<P> = Resolved(result: PageResult<P>) | Rejected(reason: Failure)
}
