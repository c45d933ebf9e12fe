/** The compile-time constants of src/main.rs:5-15. */
module Config {
  const ServiceName: string := "skeleton.herp.app"
  const ServiceTitle: string := "Rust Skeleton Service"
  const ServiceDescription: string := "A skeleton service with all necessary functionality to talk with herp but without any logic. Feel free to integrate your ideas!"
  const ServiceVersion: string := "1.0.0"
  /** Where the plugin itself listens. */
  const ServiceHost: string := "127.0.0.1:6100"
  /** Where the orchestrator listens. */
  const HerpHost: string := "127.0.0.1:5050"
}
