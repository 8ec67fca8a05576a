/** The backend addresses the browser code is configured with. */
module Config {

  /** Which backend the page talks to; the page's host name decides it. */
  datatype Deployment = Development | Production

  /** `API_BASE_URL`. */
  function ApiBaseUrl(d: Deployment): string
  {
    if d.Development? then "http://localhost:5000" else "https://flyprep-backend.onrender.com"
  }

  /** `WS_BASE_URL`. */
  function WsBaseUrl(d: Deployment): string
  {
    if d.Development? then "ws://localhost:5000" else "wss://flyprep-backend.onrender.com"
  }
}
