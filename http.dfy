/** What a Flask route hands back: a status code and a JSON body, or an uncaught exception (a 500). */
module Http {
  import opened Json

  datatype Reply = Reply(status: nat, body: Value) | Crash
}
