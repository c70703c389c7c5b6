/**
 What a route handler of src/server.js sends back, without the framework:
 only the status, the JSON error text or body, and the redirect target.
 */
module Http {
  import opened Js

  datatype Response =
    | JsonError(status: int, error: string)  // res.status(status).json({ error })
    | TextReply(status: int, body: string)   // res.status(status).send(body)
    | Redirect(location: Value)              // res.redirect(location)
    | Playlist(body: string)                 // a 200 reply of type application/vnd.apple.mpegurl
}
