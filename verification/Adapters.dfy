/** The application layer on objects: the adapters assign the request's state around the
    user's callbacks, and the canned responses call the request API step by step. */
module Adapters {
  import opened Bytes
  import opened Wire
  import opened Headers
  import opened Engine
  import opened Connections
  import App

  method CallUser(c: Connection, cb: Option<App.UserCallback>, req: Request) returns (rc: int)
    requires c.Ready()
    modifies c.out, c.input`pos, c.input`eod, c`log, c`failed, c`lost, c`inRewinds
    modifies req`sent, req`complete, req`finalized, req`headers, req`state
    ensures c.Ready() && c.InputKept()
    ensures Returned(c.OutView(), req.View(), rc) == App.User(cb, c.out.writeOk, old(c.OutView()), old(req.View()))
  {
    rc := 0;
    if cb.Some? {
      rc := c.RunProgram(req, cb.value(req.View()));
    }
  }

  /** `mnfcgi_app_begin_request`. */
  method BeginRequest(c: Connection, app: App.Callbacks, req: Request, ev: Event) returns (nparsed: int)
    requires c.Ready()
    modifies c.out, c.input`pos, c.input`eod, c`log, c`failed, c`lost, c`inRewinds
    modifies req`sent, req`complete, req`finalized, req`headers, req`state
    ensures c.Ready() && c.InputKept()
    ensures Returned(c.OutView(), req.View(), nparsed)
         == Run(c.out.writeOk, old(c.OutView()), old(req.View()), App.BeginRequest(app)(ev, old(req.View())))
  {
    App.BeginAdapter(app, c.out.writeOk, c.OutView(), req.View(), ev);
    req.state := BEGIN;
    var rc := CallUser(c, app.beginRequest, req);
    nparsed := if rc != 0 then app.beginError else ev.rec.rsz;
  }

  /** `mnfcgi_app_params`. */
  method Params(c: Connection, app: App.Callbacks, req: Request, ev: Event) returns (nparsed: int)
    requires c.Ready()
    modifies c.out, c.input`pos, c.input`eod, c`log, c`failed, c`lost, c`inRewinds
    modifies req`sent, req`complete, req`finalized, req`headers, req`state
    ensures c.Ready() && c.InputKept()
    ensures Returned(c.OutView(), req.View(), nparsed)
         == Run(c.out.writeOk, old(c.OutView()), old(req.View()), App.ParamsHandler(app)(ev, old(req.View())))
  {
    App.ParamsAdapter(app, c.out.writeOk, c.OutView(), req.View(), ev);
    if ev.rec.rsz == 0 {
      req.state := PARAMS_DONE;
      var rc := CallUser(c, app.paramsComplete, req);
      if rc != 0 {
        return app.paramsError;
      }
      req.state := HEADERS_ALLOWED;
    }
    nparsed := ev.rec.rsz;
  }

  /** `mnfcgi_app_stdin`. */
  method Stdin(c: Connection, app: App.Callbacks, req: Request, ev: Event) returns (nparsed: int)
    requires c.Ready()
    modifies c.out, c.input`pos, c.input`eod, c`log, c`failed, c`lost, c`inRewinds
    modifies req`sent, req`complete, req`finalized, req`headers, req`state
    ensures c.Ready() && c.InputKept()
    ensures Returned(c.OutView(), req.View(), nparsed)
         == Run(c.out.writeOk, old(c.OutView()), old(req.View()), App.StdinHandler(app)(ev, old(req.View())))
  {
    App.StdinAdapter(app, c.out.writeOk, c.OutView(), req.View(), ev);
    var rc;
    if ev.rec.rsz > 0 {
      rc := CallUser(c, app.stdin, req);
    } else {
      rc := CallUser(c, app.stdinEnd, req);
    }
    nparsed := if rc != 0 then app.stdinError else ev.rec.rsz;
  }

  /** The headers, then the end if they could be sent. */
  method SendEnd(c: Connection, req: Request)
    requires c.Ready()
    modifies c.out, c.input`pos, c.input`eod, c`log, c`failed, c`lost, c`inRewinds
    modifies req`sent, req`complete, req`finalized, req`headers, req`state
    ensures c.Ready() && c.InputKept()
    ensures var last := App.Guarded(FinalizeOp, Return(0), Return(0));
            var r := Run(c.out.writeOk, old(c.OutView()), old(req.View()), App.Guarded(HeadersEndOp, last, Return(0)));
            c.OutView() == r.out && req.View() == r.req
  {
    ghost var link, last := c.out.writeOk, App.Guarded(FinalizeOp, Return(0), Return(0));
    App.RunGuarded(link, c.OutView(), req.View(), HeadersEndOp, last, Return(0));
    var res := c.HeadersEnd(req);
    if res == Ok {
      App.RunGuarded(link, c.OutView(), req.View(), FinalizeOp, Return(0), Return(0));
      res := c.Finalize(req);
    }
  }

  /** Status, headers and end, each only if the one before succeeded. */
  method SendStatus(c: Connection, req: Request, status: bytes)
    requires c.Ready()
    modifies c.out, c.input`pos, c.input`eod, c`log, c`failed, c`lost, c`inRewinds
    modifies req`sent, req`complete, req`finalized, req`headers, req`state
    ensures c.Ready() && c.InputKept()
    ensures var r := Run(c.out.writeOk, old(c.OutView()), old(req.View()), App.StatusThen(status, Return(0)));
            c.OutView() == r.out && req.View() == r.req
  {
    ghost var link, last := c.out.writeOk, App.Guarded(FinalizeOp, Return(0), Return(0));
    ghost var next := App.Guarded(HeadersEndOp, last, Return(0));
    App.RunGuarded(link, c.OutView(), req.View(), FieldOp(Override, App.STATUS, Some(status)), next, Return(0));
    var res := req.FieldAdd(Override, App.STATUS, Some(status));
    if res == Ok {
      SendEnd(c, req);
    }
  }

  /** `mnfcgi_app_error`. */
  method Error(c: Connection, req: Request, status: bytes)
    requires c.Ready()
    modifies c.out, c.input`pos, c.input`eod, c`log, c`failed, c`lost, c`inRewinds
    modifies req`sent, req`complete, req`finalized, req`headers, req`state
    ensures c.Ready() && c.InputKept()
    ensures var r := Run(c.out.writeOk, old(c.OutView()), old(req.View()), App.ErrorThen(status, Return(0)));
            c.OutView() == r.out && req.View() == r.req
  {
    App.RunGuarded(c.out.writeOk, c.OutView(), req.View(), FieldOp(Plain, App.CONTENT_LENGTH, Some(App.ZERO)),
                   App.StatusThen(status, Return(0)), Return(0));
    var res := req.FieldAdd(Plain, App.CONTENT_LENGTH, Some(App.ZERO));
    if res == Ok {
      SendStatus(c, req, status);
    }
  }

  /** `mnfcgi_app_redir`. */
  method Redir(c: Connection, req: Request, status: bytes, uri: bytes)
    requires c.Ready()
    modifies c.out, c.input`pos, c.input`eod, c`log, c`failed, c`lost, c`inRewinds
    modifies req`sent, req`complete, req`finalized, req`headers, req`state
    ensures c.Ready() && c.InputKept()
    ensures var r := Run(c.out.writeOk, old(c.OutView()), old(req.View()), App.RedirThen(status, uri, Return(0)));
            c.OutView() == r.out && req.View() == r.req
  {
    ghost var link, rest := c.out.writeOk, App.StatusThen(status, Return(0));
    App.RunGuarded(link, c.OutView(), req.View(), FieldOp(Plain, App.CONTENT_LENGTH, Some(App.ZERO)),
                   App.Guarded(FieldOp(Plain, App.LOCATION, Some(uri)), rest, Return(0)), Return(0));
    var res := req.FieldAdd(Plain, App.CONTENT_LENGTH, Some(App.ZERO));
    if res != Ok {
      return;
    }
    App.RunGuarded(link, c.OutView(), req.View(), FieldOp(Plain, App.LOCATION, Some(uri)), rest, Return(0));
    res := req.FieldAdd(Plain, App.LOCATION, Some(uri));
    if res == Ok {
      SendStatus(c, req, status);
    }
  }
}
