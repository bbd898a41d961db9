/**
 * The fixed texts of the two files `register` regenerates (generateGatewayContent and
 * generateServerContent in cmd/endpoints.go). The generators write them verbatim between
 * the lines they derive from the registrations.
 */
module EndpointTexts {

  /** The fixed texts, in the order the generators write them. */
  datatype FixedText =
    | GatewayHead       // the package clause and the imports that precede the protobuf packages
    | GatewayMiddle     // the other imports, the Gateway type, NewGateway, and Start up to the dial options
    | GatewayTail       // the rest of Start from the embedded Swagger file system on, and the error, header and health handlers
    | ServerImportsEnd  // the imports after the module packages and the opening of the Server type
    | ServerMiddle      // the fields of Server, NewServer, and Run up to the creation of the gRPC server
    | ServerTail        // the end of Run, from serving on the listener on; no newline ends the file

  function Text(t: FixedText): string {
    match t
    case GatewayHead =>
@"package gateway

import (
    ""context""
    ""errors""
    ""fmt""
    ""net/http""
    ""os""
    ""os/signal""
    ""syscall""
    ""time""

    ""github.com/grpc-ecosystem/grpc-gateway/v2/runtime""
    ""google.golang.org/grpc""
    ""google.golang.org/grpc/credentials/insecure""
"
    case GatewayMiddle =>
@"    ""github.com/rakyll/statik/fs""
    ""github.com/rs/cors""
    ""github.com/sirupsen/logrus""
)

type Gateway struct {
    logger     *logrus.Logger
    grpcAddr   string
    httpAddr   string
    swaggerDir string
}

func NewGateway(logger *logrus.Logger, grpcAddr, httpAddr string) *Gateway {
    return &Gateway{
        logger:     logger,
        grpcAddr:   grpcAddr,
        httpAddr:   httpAddr,
        swaggerDir: ""../doc/swagger"",
    }
}

func (g *Gateway) Start() error {
    ctx, cancel := context.WithCancel(context.Background())
    defer cancel()

    gwMux := runtime.NewServeMux(
        runtime.WithErrorHandler(g.errorHandler),
        runtime.WithMarshalerOption(runtime.MIMEWildcard, &runtime.JSONPb{}),
        runtime.WithIncomingHeaderMatcher(g.headerMatcher),
    )

    opts := []grpc.DialOption{
        grpc.WithTransportCredentials(insecure.NewCredentials()),
        grpc.WithDefaultCallOptions(grpc.MaxCallRecvMsgSize(25 * 1024 * 1024)), // 25MB
    }

"
    case GatewayTail =>
@"    statikFS, err := fs.New()
    if err != nil {
        return fmt.Errorf(""statik filesystem error: %w"", err)
    }

    // Create main mux router
    mux := http.NewServeMux()
    mux.Handle(""/"", gwMux)
    mux.Handle(""/swagger/"", http.StripPrefix(""/swagger/"", http.FileServer(statikFS)))
    mux.HandleFunc(""/healthz"", g.healthCheck)

    // Configure CORS
    corsHandler := cors.New(cors.Options{
        AllowedOrigins:   []string{""*""},
        AllowedMethods:   []string{""GET"", ""POST"", ""PUT"", ""DELETE"", ""PATCH"", ""OPTIONS""},
        AllowedHeaders:   []string{""*""},
        AllowCredentials: true,
    }).Handler(mux)

    // Configure HTTP server
    server := &http.Server{
        Addr:         g.httpAddr,
        Handler:      corsHandler,
        ReadTimeout:  15 * time.Second,
        WriteTimeout: 30 * time.Second,
        IdleTimeout:  60 * time.Second,
    }

    // Graceful shutdown
    go func() {
        sigint := make(chan os.Signal, 1)
        signal.Notify(sigint, syscall.SIGINT, syscall.SIGTERM)
        <-sigint

        g.logger.Info(""Shutting down HTTP gateway..."")
        if err := server.Shutdown(ctx); err != nil {
            g.logger.WithError(err).Error(""HTTP gateway shutdown error"")
        }
    }()

    g.logger.Infof(""Starting HTTP gateway on %s (gRPC backend: %s)"", g.httpAddr, g.grpcAddr)
    if err := server.ListenAndServe(); !errors.Is(err, http.ErrServerClosed) && err != nil {
        return fmt.Errorf(""HTTP gateway start error: %w"", err)
    }

    return nil
}

func (g *Gateway) errorHandler(ctx context.Context, mux *runtime.ServeMux, marshaler runtime.Marshaler, w http.ResponseWriter, r *http.Request, err error) {
    g.logger.WithError(err).Error(""gateway error"")
    runtime.DefaultHTTPErrorHandler(ctx, mux, marshaler, w, r, err)
}

func (g *Gateway) headerMatcher(key string) (string, bool) {
    switch key {
    case ""X-Request-ID"", ""X-Correlation-ID"":
        return key, true
    default:
        return runtime.DefaultHeaderMatcher(key)
    }
}

func (g *Gateway) healthCheck(w http.ResponseWriter, r *http.Request) {
    w.WriteHeader(http.StatusOK)
    _, err := w.Write([]byte(""OK""))
    if err != nil {
        return
    }
}
"
    case ServerImportsEnd =>
@"    ""github.com/sirupsen/logrus""
    ""google.golang.org/grpc""
    ""net""
)

// Server implements the gRPC services
type Server struct {
"
    case ServerMiddle =>
@"    store  *db.Store
    logger *logrus.Logger
}

func NewServer(
    db *db.Store,
    logger *logrus.Logger,
) *Server {
    return &Server{
        store:  db,
        logger: logger,
    }
}

// Run starts the gRPC server
func (s *Server) Run() error {
    listener, err := net.Listen(""tcp"", "":9001"")
    if err != nil {
        panic(err.Error())
    }
    grpcServer := grpc.NewServer()

"
    case ServerTail =>
@"
    s.logger.Println(""Starting server on port 9001"")
    err = grpcServer.Serve(listener)
    if err != nil {
        s.logger.Fatal(err.Error())
        return err
    }
    return nil
}"
  }
}
