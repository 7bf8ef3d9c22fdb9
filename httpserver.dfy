/** httpserver/httpserver.go, New: timeouts below one second are replaced by fixed defaults
    before the http.Server is built. Durations are int64 nanoseconds (time.Duration). */
module HttpServer {

  const Second: int := 1_000_000_000
  const DefaultWriteTimeout: int := 15 * Second
  const DefaultReadTimeout: int := 15 * Second
  const DefaultIdleTimeout: int := 60 * Second
  const DefaultShutdownTimeout: int := 10 * Second

  /** An http.Handler; only its identity matters here. */
  datatype Handler = Handler(id: nat)

  datatype Config = Config(address: string, writeTimeout: int, readTimeout: int,
                           idleTimeout: int, shutdownTimeout: int)

  /** The fields of the http.Server that New sets. */
  datatype Server = Server(addr: string, writeTimeout: int, readTimeout: int,
                           idleTimeout: int, handler: Handler)

  datatype HttpServer = HttpServer(srv: Server, config: Config, middleware: Handler)

  /** A timeout of at least a second is kept; a shorter one (zero and negative included)
      becomes the default. */
  function OrDefault(timeout: int, default: int): (t: int)
    ensures timeout >= Second ==> t == timeout
    ensures timeout < Second ==> t == default
  {
    if timeout < Second then default else timeout
  }

  /** The configuration New keeps after defaulting. */
  function Normalized(c: Config): (n: Config)
    ensures n.address == c.address
    ensures n.writeTimeout == OrDefault(c.writeTimeout, DefaultWriteTimeout)
    ensures n.readTimeout == OrDefault(c.readTimeout, DefaultReadTimeout)
    ensures n.idleTimeout == OrDefault(c.idleTimeout, DefaultIdleTimeout)
    ensures n.shutdownTimeout == OrDefault(c.shutdownTimeout, DefaultShutdownTimeout)
  {
    c.(writeTimeout := OrDefault(c.writeTimeout, DefaultWriteTimeout),
       readTimeout := OrDefault(c.readTimeout, DefaultReadTimeout),
       idleTimeout := OrDefault(c.idleTimeout, DefaultIdleTimeout),
       shutdownTimeout := OrDefault(c.shutdownTimeout, DefaultShutdownTimeout))
  }

  /** After normalisation every timeout is at least a second, already-valid configurations are
      left alone, and normalising twice is normalising once. */
  lemma NormalizedProperties(c: Config)
    ensures var n := Normalized(c);
      && n.writeTimeout >= Second && n.readTimeout >= Second
      && n.idleTimeout >= Second && n.shutdownTimeout >= Second
    ensures Normalized(Normalized(c)) == Normalized(c)
    ensures (&& c.writeTimeout >= Second && c.readTimeout >= Second
             && c.idleTimeout >= Second && c.shutdownTimeout >= Second) ==> Normalized(c) == c
  {
  }

  /** New(c, middleware): defaults the local copy of c field by field, then builds the server
      from it. ShutdownTimeout is kept in the stored config only. */
  method New(c: Config, middleware: Handler) returns (h: HttpServer)
    ensures h.config == Normalized(c)
    ensures h.srv == Server(c.address, h.config.writeTimeout, h.config.readTimeout,
                            h.config.idleTimeout, middleware)
    ensures h.middleware == middleware
  {
    var cfg := c;
    if cfg.writeTimeout < Second {
      cfg := cfg.(writeTimeout := Second * 15);
    }
    if cfg.readTimeout < Second {
      cfg := cfg.(readTimeout := Second * 15);
    }
    if cfg.idleTimeout < Second {
      cfg := cfg.(idleTimeout := Second * 60);
    }
    if cfg.shutdownTimeout < Second {
      cfg := cfg.(shutdownTimeout := Second * 10);
    }
    var srv := Server(cfg.address, cfg.writeTimeout, cfg.readTimeout, cfg.idleTimeout, middleware);
    h := HttpServer(srv, cfg, middleware);
  }
}
