/** Option and Result values and the error conditions the scaffolding commands report. */
module Results {

  datatype Option<+T> = None | Some(value: T) {
    function GetOr(default: T): T {
      match this
      case Some(v) => v
      case None => default
    }
  }

  /** The failures the commands return; the message texts of the source are not modelled. */
  datatype Error =
    | ReadFailed(path: string)            // os.ReadFile / os.Open failed
    | CreateFailed(path: string)          // os.Create failed
    | MkdirFailed(path: string)           // os.MkdirAll failed
    | ModuleNameMissing                   // go.mod has no `module ` line
    | RpcDirUnreadable                    // os.ReadDir("app/rpc") failed
    | NoGrpcFiles(moduleName: string)       // no *_grpc.pb.go file for the module
    | NoServiceMethods(moduleName: string)   // the files declare no unary method
    | EnvNotFound                         // .env does not exist
    | MissingDbConfig                     // a required DB_* key is empty
    | MigrationsDirMissing                // database/migrations does not exist
    | ConnectionFailed                    // the database or the migrate instance could not be set up
    | InvalidDirection(direction: string) // neither "up" nor "down"
    | MigrationFailed                     // the migrate library reported an error

  datatype Result<+T> = Ok(value: T) | Err(error: Error)

  /** The outcome of an operation that returns only an error (Go's `error`, nil on success). */
  datatype Outcome = Done | Failed(error: Error)
}
