/**
  The two framework collaborators the components talk to, reduced to logs:
  the router records every navigation target, the HTTP client records every
  request it is asked to send. Responses come back as method calls on the
  components.
 */
module Platform {
  import opened Api

  class Router {
    var navigations: seq<string>

    constructor ()
      ensures navigations == []
    {
      navigations := [];
    }

    method Navigate(url: string)
      modifies this`navigations
      ensures navigations == old(navigations) + [url]
    {
      navigations := navigations + [url];
    }
  }

  class HttpClient {
    var sent: seq<Request>

    constructor ()
      ensures sent == []
    {
      sent := [];
    }

    method Send(request: Request)
      modifies this`sent
      ensures sent == old(sent) + [request]
    {
      sent := sent + [request];
    }
  }
}
